/**
 * The four counts of the dashboard's statistics cards. The approved and
 * executed cards read record fields `approval` and `execution` that no
 * operation of the store sets, so they count nothing the lifecycle does;
 * the intended counts over the decision and the execution result sit beside
 * them.
 */
module StatisticsCards {
  import opened Outcomes
  import opened DashboardModel
  import opened MockApi

  /** `actions.filter(p).length`. */
  function Count(actions: seq<Action>, p: Action -> bool): (n: nat)
    ensures n <= |actions|
  {
    if actions == [] then 0 else (if p(actions[0]) then 1 else 0) + Count(actions[1..], p)
  }

  lemma {:induction false} CountAppend(a: seq<Action>, b: seq<Action>, p: Action -> bool)
    ensures Count(a + b, p) == Count(a, p) + Count(b, p)
  {
    if a != [] {
      assert (a + b)[0] == a[0];
      assert (a + b)[1..] == a[1..] + b;
      CountAppend(a[1..], b, p);
    } else {
      assert a + b == b;
    }
  }

  /** A count does not depend on the order of the actions. */
  lemma {:induction false} CountPermutation(a: seq<Action>, b: seq<Action>, p: Action -> bool)
    requires multiset(a) == multiset(b)
    ensures Count(a, p) == Count(b, p)
  {
    if a == [] {
      assert |b| == |multiset(b)| == 0;
    } else {
      var x := a[0];
      assert x in multiset(b);
      var i :| 0 <= i < |b| && b[i] == x;
      var rest := b[..i] + b[i + 1..];
      assert b == b[..i] + [x] + b[i + 1..];
      assert a == [x] + a[1..];
      assert multiset(b) == multiset(b[..i]) + multiset([x]) + multiset(b[i + 1..]);
      assert multiset(rest) == multiset(b[..i]) + multiset(b[i + 1..]);
      assert multiset(a) == multiset([x]) + multiset(a[1..]);
      assert multiset(a[1..]) == multiset(a) - multiset{x};
      assert multiset(rest) == multiset(b) - multiset{x};
      CountPermutation(a[1..], rest, p);
      CountAppend([x], a[1..], p);
      CountAppend(b[..i] + [x], b[i + 1..], p);
      CountAppend(b[..i], [x], p);
      CountAppend(b[..i], b[i + 1..], p);
    }
  }

  /** The count is zero exactly when no action qualifies, and the total exactly when every one does. */
  lemma {:induction false} CountExtremes(a: seq<Action>, p: Action -> bool)
    ensures Count(a, p) == 0 <==> forall i :: 0 <= i < |a| ==> !p(a[i])
    ensures Count(a, p) == |a| <==> forall i :: 0 <= i < |a| ==> p(a[i])
  {
    if a != [] {
      CountExtremes(a[1..], p);
      assert forall i :: 1 <= i < |a| ==> a[i] == a[1..][i - 1];
    }
  }

  /** The record carries a truthy `approval` field. */
  predicate HasApprovalField(a: Action) {
    a.approval
  }

  /** The record carries a truthy `execution` field. */
  predicate HasExecutionField(a: Action) {
    a.execution
  }

  predicate IsHighRisk(a: Action) {
    a.riskAssessment.Some? && a.riskAssessment.value.riskLevel == "high"
  }

  /** The total card: every other card counts at most this many, and it is zero only for an empty store. */
  function TotalActions(actions: seq<Action>): (n: nat)
    ensures ApprovedActions(actions) <= n && ExecutedActions(actions) <= n && HighRiskActions(actions) <= n
    ensures n == 0 <==> actions == []
  {
    |actions|
  }

  /** `actions.filter(a => a.approval).length`, as written: zero exactly when no record carries the field. */
  function ApprovedActions(actions: seq<Action>): (n: nat)
    ensures n <= |actions|
    ensures n == 0 <==> forall i :: 0 <= i < |actions| ==> !actions[i].approval
    ensures n == |actions| <==> forall i :: 0 <= i < |actions| ==> actions[i].approval
  {
    CountExtremes(actions, HasApprovalField);
    Count(actions, HasApprovalField)
  }

  /** `actions.filter(a => a.execution).length`, as written: zero exactly when no record carries the field. */
  function ExecutedActions(actions: seq<Action>): (n: nat)
    ensures n <= |actions|
    ensures n == 0 <==> forall i :: 0 <= i < |actions| ==> !actions[i].execution
    ensures n == |actions| <==> forall i :: 0 <= i < |actions| ==> actions[i].execution
  {
    CountExtremes(actions, HasExecutionField);
    Count(actions, HasExecutionField)
  }

  /** The high-risk card counts exactly the actions assessed as high; one without an assessment never counts. */
  function HighRiskActions(actions: seq<Action>): (n: nat)
    ensures n <= |actions|
    ensures n == 0 <==> forall i :: 0 <= i < |actions| ==> !IsHighRisk(actions[i])
    ensures n == |actions| <==> forall i :: 0 <= i < |actions| ==>
              actions[i].riskAssessment.Some? && actions[i].riskAssessment.value.riskLevel == "high"
  {
    CountExtremes(actions, IsHighRisk);
    Count(actions, IsHighRisk)
  }

  /** Every card counts at most the total, and none of them depends on the order of the actions. */
  lemma CardsBoundedAndOrderFree(a: seq<Action>, b: seq<Action>)
    requires multiset(a) == multiset(b)
    ensures ApprovedActions(a) <= TotalActions(a) && ExecutedActions(a) <= TotalActions(a)
    ensures HighRiskActions(a) <= TotalActions(a)
    ensures TotalActions(a) == TotalActions(b)
    ensures ApprovedActions(a) == ApprovedActions(b) && ExecutedActions(a) == ExecutedActions(b)
    ensures HighRiskActions(a) == HighRiskActions(b)
  {
    assert |a| == |multiset(a)| == |multiset(b)| == |b|;
    CountPermutation(a, b, HasApprovalField);
    CountPermutation(a, b, HasExecutionField);
    CountPermutation(a, b, IsHighRisk);
  }

  /** A store whose records carry no `approval`/`execution` fields shows zero on both cards, whatever happened to them. */
  lemma CardsIgnoreLifecycle(a: seq<Action>)
    requires forall i :: 0 <= i < |a| ==> !a[i].approval && !a[i].execution
    ensures ApprovedActions(a) == 0 && ExecutedActions(a) == 0
  {
    CountExtremes(a, HasApprovalField);
    CountExtremes(a, HasExecutionField);
  }

  /** A declared and then approved (or executed) action is missed by the card as written and counted by the intended one. */
  lemma CardsMissLifecycle(data: DeclareInput, env: DeclareEnv, approver: string, reason: string, at: string,
                           webhookUrl: string, xenv: ExecuteEnv)
    requires ValidDraws(env) && IsDraw(xenv.recordsDraw)
    ensures var a := Approved(NewAction(data, env), approver, reason, at);
            ApprovedActions([a]) == 0 && ApprovedActionsIntended([a]) == 1
    ensures var a := Executed(NewAction(data, env), webhookUrl, xenv);
            ExecutedActions([a]) == 0 && ExecutedActionsIntended([a]) == 1
  {
  }

  predicate IsApproved(a: Action) {
    a.approvalDecision.Some? && a.approvalDecision.value.decision == "approved"
  }

  predicate IsExecuted(a: Action) {
    a.executionResult.Some?
  }

  /** The approved card as evidently intended: records whose decision is an approval. */
  function ApprovedActionsIntended(actions: seq<Action>): nat {
    Count(actions, IsApproved)
  }

  /** The executed card as evidently intended: records with an execution result. */
  function ExecutedActionsIntended(actions: seq<Action>): nat {
    Count(actions, IsExecuted)
  }

  /** Replacing one record changes a count by how that record's membership changes. */
  lemma CountUpdate(s: seq<Action>, k: nat, b: Action, p: Action -> bool)
    requires k < |s|
    ensures Count(s[k := b], p) + (if p(s[k]) then 1 else 0) == Count(s, p) + (if p(b) then 1 else 0)
  {
    assert s == s[..k] + [s[k]] + s[k + 1..];
    assert s[k := b] == s[..k] + [b] + s[k + 1..];
    CountAppend(s[..k] + [s[k]], s[k + 1..], p);
    CountAppend(s[..k], [s[k]], p);
    CountAppend(s[..k] + [b], s[k + 1..], p);
    CountAppend(s[..k], [b], p);
  }

  /**
   * On the intended cards, approving a record not yet approved adds one to
   * the approved count, rejecting an approved one takes one away, and
   * executing a record not yet executed adds one to the executed count.
   */
  lemma IntendedCardsFollowLifecycle(s: seq<Action>, k: nat, approver: string, reason: string, at: string,
                                     webhookUrl: string, xenv: ExecuteEnv)
    requires k < |s| && IsDraw(xenv.recordsDraw)
    ensures !IsApproved(s[k]) ==>
              ApprovedActionsIntended(s[k := Approved(s[k], approver, reason, at)]) == ApprovedActionsIntended(s) + 1
    ensures IsApproved(s[k]) ==>
              ApprovedActionsIntended(s[k := Rejected(s[k], approver, reason, at)]) + 1 == ApprovedActionsIntended(s)
    ensures !IsExecuted(s[k]) ==>
              ExecutedActionsIntended(s[k := Executed(s[k], webhookUrl, xenv)]) == ExecutedActionsIntended(s) + 1
  {
    CountUpdate(s, k, Approved(s[k], approver, reason, at), IsApproved);
    CountUpdate(s, k, Rejected(s[k], approver, reason, at), IsApproved);
    CountUpdate(s, k, Executed(s[k], webhookUrl, xenv), IsExecuted);
  }

  /** The intended cards stay within the total and do not depend on the order of the actions. */
  lemma IntendedCardsBoundedAndOrderFree(a: seq<Action>, b: seq<Action>)
    requires multiset(a) == multiset(b)
    ensures ApprovedActionsIntended(a) <= TotalActions(a) && ExecutedActionsIntended(a) <= TotalActions(a)
    ensures ApprovedActionsIntended(a) == ApprovedActionsIntended(b)
    ensures ExecutedActionsIntended(a) == ExecutedActionsIntended(b)
  {
    CountPermutation(a, b, IsApproved);
    CountPermutation(a, b, IsExecuted);
  }
}
