/**
 * The decisions the dashboard's actions table makes per record: which
 * buttons it offers, what the Approval column shows, the approver label,
 * the row class and the risk-level colour.
 */
module ActionsTable {
  import opened Outcomes
  import opened DashboardModel
  import opened MockApi

  /** The Reject button: offered only while a decision is pending, never beside Execute and never on a settled record. */
  function CanReject(a: Action): (r: bool)
    ensures r ==> !CanExecute(a)
    ensures a.status in {"approved", "rejected", "executing", "executed", "verified", "rolled_back"} ==> !r
  {
    a.status == "pending_approval"
  }

  /** The Approve button: offered only where Reject is, and only when there is a request to approve. */
  function CanApprove(a: Action): (r: bool)
    ensures r ==> CanReject(a) && !CanExecute(a)
    ensures a.approvalRequest.None? ==> !r
    ensures a.status in {"approved", "rejected", "executing", "executed", "verified", "rolled_back"} ==> !r
  {
    a.status == "pending_approval" && a.approvalRequest.Some?
  }

  /** The Execute button: offered once approved, and again on an execution that stopped part-way. */
  function CanExecute(a: Action): (r: bool)
    ensures r ==> a.status in {"approved", "executing"}
    ensures a.status == "executing" ==> (r <==> a.executionResult.Some? && a.executionResult.value.status == "partial")
    ensures a.status in {"pending_approval", "rejected", "executed", "verified", "rolled_back"} ==> !r
  {
    a.status == "approved"
    || (a.status == "executing" && a.executionResult.Some? && a.executionResult.value.status == "partial")
  }

  /** How the three buttons relate: approving implies rejecting is offered, and execute and reject exclude each other. */
  lemma ButtonRules(a: Action)
    ensures CanApprove(a) ==> CanReject(a)
    ensures !(CanExecute(a) && CanReject(a))
    ensures a.status in {"rejected", "executed", "verified", "rolled_back"} ==>
              !CanApprove(a) && !CanExecute(a) && !CanReject(a)
  {
  }

  /** A freshly declared action can be approved or rejected, not executed. */
  lemma DeclaredButtons(data: DeclareInput, env: DeclareEnv)
    requires ValidDraws(env)
    ensures CanApprove(NewAction(data, env)) && CanReject(NewAction(data, env)) && !CanExecute(NewAction(data, env))
  {
  }

  /** After approval only execution is offered; after a rejection, an execution, a verification or a rollback nothing is. */
  lemma LifecycleButtons(a: Action, approver: string, reason: string, at: string, webhookUrl: string, env: ExecuteEnv)
    requires IsDraw(env.recordsDraw)
    ensures var b := Approved(a, approver, reason, at); CanExecute(b) && !CanApprove(b) && !CanReject(b)
    ensures var b := Rejected(a, approver, reason, at); !CanExecute(b) && !CanApprove(b) && !CanReject(b)
    ensures var b := Executed(a, webhookUrl, env); !CanExecute(b) && !CanApprove(b) && !CanReject(b)
    ensures var b := Verified(a, at); !CanExecute(b) && !CanApprove(b) && !CanReject(b)
    ensures var b := RolledBack(a, reason, at); !CanExecute(b) && !CanApprove(b) && !CanReject(b)
  {
  }

  /** What the Approval column renders (the decision is shown upper-cased; the text stays as stored here). */
  datatype ApprovalCell =
    | DecisionCell(decision: string, approved: bool, approver: string)
    | RequestCell(priority: string, needs: string)
    | NotApplicable

  /** No ':' occurs in `s`. */
  predicate NoColon(s: string) {
    forall i :: 0 <= i < |s| ==> s[i] != ':'
  }

  /** The text of `s` before its first ':' (all of `s` when there is none). */
  function BeforeColon(s: string): (r: string)
    ensures NoColon(r) && |r| <= |s| && r == s[..|r|]
    ensures |r| == |s| || s[|r|] == ':'
  {
    if s == [] || s[0] == ':' then [] else [s[0]] + BeforeColon(s[1..])
  }

  /** The text of `s` after its first ':', if it has one. */
  function AfterColon(s: string): (r: Option<string>)
    ensures r.None? <==> NoColon(s)
    ensures r.Some? ==> s == BeforeColon(s) + ":" + r.value
  {
    if s == [] then None
    else if s[0] == ':' then
      assert s == [] + ":" + s[1..];
      Some(s[1..])
    else
      var r := AfterColon(s[1..]);
      assert NoColon(s) <==> NoColon(s[1..]) by {
        assert forall i :: 1 <= i < |s| ==> s[i] == s[1..][i - 1];
      }
      if r.Some? then
        assert s == [s[0]] + (BeforeColon(s[1..]) + ":" + r.value);
        r
      else r
  }

  /** `s.split(':')[1]` as the label shows it: the second ':'-separated segment, or "" when there is none. */
  function SecondSegment(s: string): (r: string)
    ensures NoColon(r)
    ensures NoColon(s) ==> r == ""
  {
    match AfterColon(s)
    case None => ""
    case Some(t) => BeforeColon(t)
  }

  lemma {:induction false} AfterColonOf(p: string, x: string)
    requires NoColon(p)
    ensures AfterColon(p + ":" + x) == Some(x)
  {
    if p != [] {
      assert (p + ":" + x)[1..] == p[1..] + ":" + x;
      AfterColonOf(p[1..], x);
    }
  }

  lemma {:induction false} BeforeColonOf(r: string, tail: string)
    requires NoColon(r) && (tail == [] || tail[0] == ':')
    ensures BeforeColon(r + tail) == r
  {
    if r != [] {
      assert (r + tail)[1..] == r[1..] + tail;
      BeforeColonOf(r[1..], tail);
    } else {
      assert r + tail == tail;
    }
  }

  /** The segment after the first ':', when no other ':' follows: `role:devops` gives `devops`. */
  lemma LastSegment(p: string, r: string)
    requires NoColon(p) && NoColon(r)
    ensures SecondSegment(p + ":" + r) == r
  {
    AfterColonOf(p, r);
    BeforeColonOf(r, []);
    assert r + [] == r;
  }

  /** `role:<name>` gives the name. */
  lemma RoleSegment(name: string)
    requires NoColon(name)
    ensures SecondSegment("role:" + name) == name
  {
    var p := "role";
    assert p[0] != ':' && p[1] != ':' && p[2] != ':' && p[3] != ':';
    assert "role:" + name == p + ":" + name;
    LastSegment(p, name);
  }

  /** The segment stops at the second ':': `a:b:c` gives `b`. */
  lemma MiddleSegment(p: string, r: string, q: string)
    requires NoColon(p) && NoColon(r)
    ensures SecondSegment(p + ":" + r + ":" + q) == r
  {
    var t := r + ":" + q;
    assert p + ":" + r + ":" + q == p + ":" + t;
    AfterColonOf(p, t);
    assert t == r + (":" + q);
    BeforeColonOf(r, ":" + q);
  }

  /** `parts.join(sep)`. */
  function Join(parts: seq<string>, sep: string): string {
    if parts == [] then ""
    else if |parts| == 1 then parts[0]
    else parts[0] + sep + Join(parts[1..], sep)
  }

  lemma {:induction false} JoinNoColon(parts: seq<string>, sep: string)
    requires NoColon(sep) && forall i :: 0 <= i < |parts| ==> NoColon(parts[i])
    ensures NoColon(Join(parts, sep))
  {
    if |parts| > 1 {
      JoinNoColon(parts[1..], sep);
      var t := Join(parts[1..], sep);
      var j := parts[0] + sep + t;
      assert forall i :: 0 <= i < |j| ==> j[i] == (if i < |parts[0]| then parts[0][i]
                                                    else if i < |parts[0]| + |sep| then sep[i - |parts[0]|]
                                                    else t[i - |parts[0]| - |sep|]);
    }
  }

  /** One label segment per approver, in order. */
  function Segments(approvers: seq<string>): (r: seq<string>)
    ensures |r| == |approvers|
    ensures forall i :: 0 <= i < |r| ==> r[i] == SecondSegment(approvers[i])
  {
    seq(|approvers|, i requires 0 <= i < |approvers| => SecondSegment(approvers[i]))
  }

  /** The "Needs:" label: every approver's second segment, joined with ", ". */
  function ApproverLabel(approvers: seq<string>): (r: string)
    ensures NoColon(r)
    ensures approvers == [] ==> r == ""
    ensures |approvers| == 1 ==> r == SecondSegment(approvers[0])
  {
    var sep := ", ";
    assert NoColon(sep) by { assert sep[0] == ',' && sep[1] == ' '; }
    JoinNoColon(Segments(approvers), sep);
    Join(Segments(approvers), sep)
  }

  /** Approvers written as `role:<name>` are listed by name, one per approver and in order. */
  lemma RoleLabels(roles: seq<string>, names: seq<string>)
    requires |roles| == |names|
    requires forall i :: 0 <= i < |names| ==> NoColon(names[i]) && roles[i] == "role:" + names[i]
    ensures ApproverLabel(roles) == Join(names, ", ")
  {
    forall i | 0 <= i < |names| ensures SecondSegment(roles[i]) == names[i] {
      RoleSegment(names[i]);
    }
    assert Segments(roles) == names;
  }

  /** The Approval column: the decision if there is one, else the request's priority and approvers, else N/A. */
  function ApprovalColumn(a: Action): (c: ApprovalCell)
    ensures c.DecisionCell? <==> a.approvalDecision.Some?
    ensures c.RequestCell? <==> a.approvalDecision.None? && a.approvalRequest.Some?
    ensures c.NotApplicable? <==> a.approvalDecision.None? && a.approvalRequest.None?
    ensures c.DecisionCell? ==> (c.approved <==> a.approvalDecision.value.decision == "approved")
                                && c.approver == a.approvalDecision.value.approver
    ensures c.RequestCell? ==> c.priority == a.approvalRequest.value.priority
                               && c.needs == ApproverLabel(a.approvalRequest.value.approvers)
  {
    if a.approvalDecision.Some? then
      var d := a.approvalDecision.value;
      DecisionCell(d.decision, d.decision == "approved", d.approver)
    else if a.approvalRequest.Some? then
      RequestCell(a.approvalRequest.value.priority, ApproverLabel(a.approvalRequest.value.approvers))
    else NotApplicable
  }

  /** An undecided record shows its request's priority and approver names. */
  lemma PendingApprovalColumn(a: Action)
    requires a.approvalDecision.None? && a.approvalRequest.Some?
    requires a.approvalRequest.value.approvers == ["role:default_approver"]
    ensures ApprovalColumn(a) == RequestCell(a.approvalRequest.value.priority, "default_approver")
  {
    assert NoColon("default_approver");
    RoleLabels(["role:default_approver"], ["default_approver"]);
  }

  /** A declared action shows its normal-priority request for the default approver. */
  lemma DeclaredApprovalColumn(data: DeclareInput, env: DeclareEnv)
    requires ValidDraws(env)
    ensures ApprovalColumn(NewAction(data, env)) == RequestCell("normal", "default_approver")
  {
    PendingApprovalColumn(NewAction(data, env));
  }

  /** Once decided, the column shows the decision and its approver instead of the request. */
  lemma DecidedApprovalColumn(a: Action, approver: string, reason: string, at: string)
    ensures ApprovalColumn(Approved(a, approver, reason, at)) == DecisionCell("approved", true, approver)
    ensures ApprovalColumn(Rejected(a, approver, reason, at)) == DecisionCell("rejected", false, approver)
  {
  }

  function RowClassName(a: Action): (r: string)
    ensures r == "row-rejected" <==> a.status == "rejected"
    ensures r == "row-executing" <==> a.status == "executing"
    ensures r == "" <==> a.status != "rejected" && a.status != "executing"
  {
    if a.status == "rejected" then "row-rejected"
    else if a.status == "executing" then "row-executing"
    else ""
  }

  /** The mock store never moves a record to "executing", so only seeded records get that row class. */
  lemma RowClassesOfOperations(data: DeclareInput, env: DeclareEnv, a: Action, approver: string, reason: string,
                               at: string, webhookUrl: string, xenv: ExecuteEnv)
    requires ValidDraws(env) && IsDraw(xenv.recordsDraw)
    ensures RowClassName(NewAction(data, env)) == ""
    ensures RowClassName(Approved(a, approver, reason, at)) == ""
    ensures RowClassName(Rejected(a, approver, reason, at)) == "row-rejected"
    ensures RowClassName(Executed(a, webhookUrl, xenv)) == ""
    ensures RowClassName(Verified(a, at)) == "" && RowClassName(RolledBack(a, reason, at)) == ""
  {
  }

  function RiskColor(riskLevel: string): (r: string)
    ensures r == "green" <==> riskLevel == "low"
    ensures r == "orange" <==> riskLevel == "medium"
    ensures r == "red" <==> riskLevel == "high"
    ensures r == "default" <==> riskLevel !in {"low", "medium", "high"}
  {
    match riskLevel
    case "low" => "green"
    case "medium" => "orange"
    case "high" => "red"
    case _ => "default"
  }

  /** A declared action is never shown in the default colour, and it is green exactly when its score is at most 0.3. */
  lemma DeclaredRiskColor(data: DeclareInput, env: DeclareEnv)
    requires ValidDraws(env)
    ensures var ra := NewAction(data, env).riskAssessment.value;
            && RiskColor(ra.riskLevel) != "default"
            && (RiskColor(ra.riskLevel) == "green" <==> ra.riskScore <= 0.3)
            && (RiskColor(ra.riskLevel) == "red" <==> ra.riskScore > 0.5)
  {
  }
}
