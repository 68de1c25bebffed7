# Action Transaction Protocol — a verified model of the lifecycle core

The Action Transaction Protocol (ATP) moves an operational action through a
fixed lifecycle: declaration, risk assessment, approval, execution and
verification, with an optional rollback. This project models the parts of
the repository that decide that lifecycle, and proves properties of them in
Dafny:

- **the dashboard's mock backend** (`dashboard/src/mock-api.js`). It is a
  module-level list of action records. `declareAction` puts a new record in
  front. The approve, reject, execute, verify and rollback operations find a
  record by id and update it in place. The audit trail and the explanation
  are read-only views of a record. Model: module `MockApi`, class
  `MockStore`, over the records of `DashboardModel`.
- **the gateway's in-memory store** (`gateaway/components/ATPStore.py`). It
  keeps one dictionary per lifecycle stage, an append-only audit log per
  action, and a history of verification outcomes. The history feeds the
  similarity statistics. Model: module `AtpStore`, class `ATPStore`.
- **the gateway's rule-based risk assessor**
  (`gateaway/components/OpenAIRiskAssestor.py`). This is the fallback scorer
  used when the language-model call fails. It also covers the clean-up of
  the model's reply: stripping it, cutting out the text of a code fence, and
  dropping a `json` tag. Model: module `RiskAssessor`, built on the
  Python-string helpers of `Text`.
- **the approval routing** (`gateaway/components/ApprovalEngine.py`): from a
  risk level to an approval request. Model: module `ApprovalEngine`.
- **post-execution verification**
  (`gateaway/components/VerficationEngine.py`): three checks and a verdict.
  Model: module `VerificationEngine`.
- **the dashboard's table and cards** (`ActionsTable.jsx`,
  `StatisticsCards.jsx`). These cover which buttons a row offers, the
  Approval column and its approver label, the row class, the risk colour,
  and the four counts. Model: modules `ActionsTable` and `StatisticsCards`.

Shared datatypes live in `outcomes.dfy` (`Option`, `Result`, `Outcome`),
`gateway_models.dfy` (the gateway's records) and `dashboard_model.dfy` (the
dashboard's action record).

Randomness (`Math.random`, `uuid4`) and clock readings (`Date.now`,
`new Date()`, `datetime.utcnow()`) become parameters. A random draw is a
real in [0, 1). A clock reading is the text the source would have produced.
Scores are exact reals. The fallback scorer's sums lie at least 0.05 away
from every threshold it compares them with, so floating-point rounding
cannot change a level or a recommendation.

Two behaviours of the mock store are worth knowing before reading the
lemmas:

- No operation checks the prior status. A rejected action can still be
  approved or executed, and an approved one can still be rejected
  (`MockApi.ExecuteAfterReject`, `MockApi.RejectAfterApprove`).
- The audit trail is ordered by lifecycle stage, and its timestamps come
  from the record (`MockApi.TrailEvents`).

## Model

| member | source | states |
|---|---|---|
| MockApi.Or | dashboard/src/mock-api.js:464 | `s \|\| fallback` on strings: a non-empty string is kept, and the empty string gives exactly the fallback |
| MockApi.FloorScaled | dashboard/src/mock-api.js:500 | `Math.floor(draw * n)` for a draw in [0, 1) is a whole number below `n`, within one of `draw * n` |
| MockApi.IndexOf | dashboard/src/mock-api.js:527 | `find` by `action_id`: the result holds the id, no earlier record holds it, and nothing is found exactly when no record holds it |
| MockApi.MockStore.Find | dashboard/src/mock-api.js:527 | the loop that searches the live list returns exactly the first index `IndexOf` describes |
| MockApi.UpdateKeepsIndex | dashboard/src/mock-api.js:529-535 | replacing a record by one with the same id does not change where any id is found, so a later operation on that id reaches the same record |
| MockApi.PrependShiftsIndex | dashboard/src/mock-api.js:518 | after `unshift`, the new record is found under its id at index 0, and every other id is found one place later |
| MockApi.NewAction | dashboard/src/mock-api.js:458-516 | the declared record: id `act_<millis>`, status pending_approval, score in [0.1, 0.6), level high/medium/low exactly for score > 0.5 / in (0.3, 0.5] / <= 0.3, human review and human_required approval exactly when score > 0.3, a single factor weighted by the score, approvers `role:default_approver` with normal priority, similar-action statistics in their ranges, and no decision, execution, verification or rollback |
| MockApi.DeclareDefaults | dashboard/src/mock-api.js:458-485 | every given field of the declaration is kept and every missing one takes its literal default: workflow `wf_custom_v1`, action type `api.call`, target `unknown`/`unknown`/`unknown`, an empty payload, a context with reason "Custom action", empty related and prior lists, the target system as service, namespace custom and status pending, and a human initiator `current_user` with session `session_<millis>` |
| MockApi.MockStore.DeclareAction | dashboard/src/mock-api.js:455-522 | the new record is returned and placed in front of the previous list |
| MockApi.DeclaredIsFound | dashboard/src/mock-api.js:518-519 | a declared record is found under its id, ahead of any record with that id the store held before |
| MockApi.Approved | dashboard/src/mock-api.js:529-537 | an approval attaches an approved decision by the approver, at the given time, with the given reason when non-empty and exactly "Manual approval" otherwise; status and `context.status` become approved; the declaration and the other sub-records are unchanged |
| MockApi.MockStore.ApproveAction | dashboard/src/mock-api.js:524-544 | an unknown id fails with "Action not found" and leaves the store unchanged; otherwise exactly the found record is replaced by its approved form, which is returned |
| MockApi.Rejected | dashboard/src/mock-api.js:551-559 | as `Approved` with decision rejected, status rejected, and the given reason when non-empty and exactly "Manual rejection" otherwise |
| MockApi.MockStore.RejectAction | dashboard/src/mock-api.js:546-566 | an unknown id fails and leaves the store unchanged; otherwise exactly the found record is replaced by its rejected form |
| MockApi.RejectAfterApprove | dashboard/src/mock-api.js:524-566 | a rejection after an approval leaves the same record as the rejection alone (last decision wins) |
| MockApi.ApproveAfterReject | dashboard/src/mock-api.js:524-566 | an approval after a rejection leaves the same record as the approval alone |
| MockApi.LastDecisionWins | dashboard/src/mock-api.js:524-566 | on the whole store, approve-then-reject of one id finds the same record both times and leaves the store a single rejection leaves |
| MockApi.ExecuteAfterReject | dashboard/src/mock-api.js:568-609 | execution is not guarded by status: a rejected record can still be executed and keeps its rejection |
| MockApi.Executed | dashboard/src/mock-api.js:572-602 | execution attaches a successful result with the given times, the webhook and the execution time `<seconds>s`; a refund `re_<millis>` copying the payload's amount and currency exactly for payment.process; 1 to 100 affected records exactly for database.update; one audit-log side effect; status executed |
| MockApi.MockStore.ExecuteAction | dashboard/src/mock-api.js:568-609 | an unknown id fails and leaves the store unchanged; otherwise exactly the found record is replaced by its executed form and its execution result is returned |
| MockApi.Verified | dashboard/src/mock-api.js:615-635 | verification attaches a verified result with two passing checks and confidence 0.95; status verified |
| MockApi.MockStore.VerifyAction | dashboard/src/mock-api.js:611-642 | an unknown id fails and leaves the store unchanged; otherwise exactly the found record is replaced by its verified form and the verification is returned |
| MockApi.RolledBack | dashboard/src/mock-api.js:648-657 | a rollback attaches a completed rollback with the given reason when non-empty and exactly "Manual rollback" otherwise, and the two compensating actions; status rolled_back |
| MockApi.MockStore.RollbackAction | dashboard/src/mock-api.js:644-664 | an unknown id fails and leaves the store unchanged; otherwise exactly the found record is replaced by its rolled-back form and the rollback is returned |
| MockApi.TrailEvents | dashboard/src/mock-api.js:669-713 | the trail always opens with the declaration (the record's timestamp, initiator source and workflow, each falling back to its default) and the risk assessment (by risk_engine, with the assessment's timestamp, score and recommendation or their defaults); it has one more event per attached decision, execution and verification, in strict lifecycle order and exactly when that sub-record is attached; the decision event is `approval_<decision>` by the approver at the decision's time with its reason, the execution event is by execution_engine at the start time with the execution status, and the verification event is by verification_engine at the verification's time with its overall status |
| MockApi.MockStore.GetAuditTrail | dashboard/src/mock-api.js:666-721 | the trail built by appending events to a list is `TrailEvents` of the record `find` returns, under the requested id |
| MockApi.MockStore.GetExplanation | dashboard/src/mock-api.js:723-743 | an unknown id gets the not-found text and no factors; a found record without a risk assessment or an approval request gets no answer; otherwise the factors are the risk factors' names in order, the breakdown is the assessment, and the text gives the initiator's type and source, the workflow id, the risk level and score, the number of factors, and human approval exactly for human_required |
| MockApi.MockStore.GetActions | dashboard/src/mock-api.js:745-751 | the live list itself |
| MockApi.MockStore.constructor | dashboard/src/mock-api.js:1 | the store starts with the given seed records |
| AtpStore.AssignedId | gateaway/components/ATPStore.py:31-32 | a declared non-empty id is kept; an empty one becomes `act_` plus the first eight characters of the uuid's hex form, twelve characters in all |
| AtpStore.Appended | gateaway/components/ATPStore.py:80-87 | an audit append creates the id's log if needed, adds exactly the new entry at its end, and leaves every other log unchanged |
| AtpStore.AppendedKeepsHistory | gateaway/components/ATPStore.py:80-87 | after an append the log is one longer, ends with the new entry and keeps its earlier entries as a prefix |
| AtpStore.ATPStore.AuditLog | gateaway/components/ATPStore.py:75-87 | the method's update of the logs is `Appended` with a timestamped entry |
| AtpStore.ATPStore.StoreAction | gateaway/components/ATPStore.py:27-34 | the declaration is filed under its assigned id (which it now carries) and `action_declared` is logged under that id |
| AtpStore.ATPStore.StoreRiskAssessment | gateaway/components/ATPStore.py:36-41 | the assessment is filed under its action id and `risk_assessed` is logged |
| AtpStore.ATPStore.StoreApproval | gateaway/components/ATPStore.py:43-48 | the decision is filed under its action id and `approval_received` is logged |
| AtpStore.ATPStore.StoreExecution | gateaway/components/ATPStore.py:50-55 | the execution is filed under its action id and `execution_completed` is logged |
| AtpStore.ATPStore.StoreVerification | gateaway/components/ATPStore.py:57-73 | the verification is filed and logged in every case; a declared action with a risk assessment is appended to the history with its execution if any; a declared action without one raises KeyError and adds no history |
| AtpStore.Similar | gateaway/components/ATPStore.py:91-96 | the similar entries are exactly the history entries with the same target system, operation and namespace, each as often as in the history (a sub-multiset of it) |
| AtpStore.CountVerified | gateaway/components/ATPStore.py:105 | the number of verified entries is at most the number of entries; it is zero exactly when no entry is verified and equals the count exactly when every entry is |
| AtpStore.SuccessRate | gateaway/components/ATPStore.py:109 | `successful / count` is a fraction in [0, 1] that multiplies back to `successful` |
| AtpStore.ATPStore.GetSimilarActions | gateaway/components/ATPStore.py:89-111 | the count is the number of similar entries and is zero exactly when nothing matches; then the rate is 0.0 and the time "N/A"; otherwise the rate is the verified fraction, in [0, 1], and the time "2.3s" |
| AtpStore.ATPStore.constructor | gateaway/components/ATPStore.py:16-25 | a new store has six empty dictionaries and an empty history |
| RiskAssessor.AppendFactor | gateaway/components/OpenAIRiskAssestor.py:157-163 | appending a factor adds its weight to the sum and one to the count of its family |
| RiskAssessor.EnvironmentFactors | gateaway/components/OpenAIRiskAssestor.py:154-171 | one environment factor exactly for production or staging and none otherwise; its weight lies in [0, 0.4] and is 0.4 exactly for production |
| RiskAssessor.ServiceFactor | gateaway/components/OpenAIRiskAssestor.py:173-190 | always one service factor; weight in [0.1, 0.3], weight 0.3 and severity high exactly when the service name contains "api" or "gateway" |
| RiskAssessor.TimeFactor | gateaway/components/OpenAIRiskAssestor.py:192-209 | always one time factor; weight in [0.05, 0.15], and 0.15 exactly for hours 9 to 17 |
| RiskAssessor.EnvironmentStage | gateaway/components/OpenAIRiskAssestor.py:151-171 | the environment section, run from an empty list and a zero total, leaves `EnvironmentFactors` and its weight sum |
| RiskAssessor.ServiceStage | gateaway/components/OpenAIRiskAssestor.py:173-190 | the service section appends `ServiceFactor` and keeps the total equal to the weight sum |
| RiskAssessor.TimeStage | gateaway/components/OpenAIRiskAssestor.py:192-209 | the time section appends `TimeFactor` and keeps the total equal to the weight sum |
| RiskAssessor.CollectFactors | gateaway/components/OpenAIRiskAssestor.py:151-209 | the three stages in order build the environment factor (if any), the service factor and the time factor, and the running total is their weight sum |
| RiskAssessor.FactorRules | gateaway/components/OpenAIRiskAssestor.py:154-209 | the score lies in [0.15, 0.85]; there is one service factor, one time factor, and an environment factor exactly for production or staging; the service factor is customer-facing exactly when the service name contains "api" or "gateway", and the time factor is business hours exactly for hours 9 to 17 |
| RiskAssessor.Decide | gateaway/components/OpenAIRiskAssestor.py:211-230 | level high for score >= 0.7, medium for [0.3, 0.7), low below; auto-approval exactly for low, or for medium with more than ten similar actions at a success rate above 0.95 |
| RiskAssessor.FallbackAssessment | gateaway/components/OpenAIRiskAssestor.py:148-241 | the whole fallback assessment: score is the sum of the factor weights and lies in [0.15, 0.85], the family counts and positions of the factors, the level and recommendation rules, and confidence 0.75 |
| RiskAssessor.Unfenced | gateaway/components/OpenAIRiskAssestor.py:120-125 | the cleaned reply is stripped; a reply that does not open with a fence is only stripped; a fenced reply yields text containing no fence (the fenced cases are pinned down by `FencedReply` and `UntaggedReply`) |
| RiskAssessor.StripFences | gateaway/components/OpenAIRiskAssestor.py:120-125 | the step-by-step reassignment of `content` yields `Unfenced` of the reply |
| RiskAssessor.PlainReply | gateaway/components/OpenAIRiskAssestor.py:120-121 | a reply without a fence comes back with only its surrounding whitespace removed |
| RiskAssessor.FencedReply | gateaway/components/OpenAIRiskAssestor.py:121-125 | a reply that opens with a json-tagged fence gives back exactly the JSON body, whatever whitespace surrounds it and whatever follows the closing fence |
| RiskAssessor.UntaggedReply | gateaway/components/OpenAIRiskAssestor.py:121-125 | a reply whose fence carries no `json` tag gives back exactly the fenced text, stripped, whatever surrounds the fence |
| ApprovalEngine.Construct | gateaway/models/ApprovalRequest.py:4-10 | the request record is built exactly when its required approvers were passed, and then holds exactly the passed action id, score, type, approvers, deadline and priority; otherwise validation fails on that field |
| ApprovalEngine.RequestArgsFor | gateaway/components/ApprovalEngine.py:22-69 | every branch passes the action id, the score and a 24-hour deadline; auto-approval exactly for low, human_required otherwise; low priority exactly for low and medium, high otherwise; approvers are missing exactly in the medium branch, and are `system` for low, `cto_team` for high and `security_team` for any other level |
| ApprovalEngine.GetApprovalRequest | gateaway/components/ApprovalEngine.py:12-69 | as written: the request fails validation exactly for medium; low goes to `system` with low priority; every other level that succeeds is human_required with high priority, going to `cto_team` for high and to `security_team` for any level outside low, medium and high |
| ApprovalEngine.MediumRequestFails | gateaway/components/ApprovalEngine.py:34-45 | every medium-risk request fails on its missing approvers |
| ApprovalEngine.GetApprovalRequestIntended | gateaway/components/ApprovalEngine.py:34-45 | corrected: medium goes to `on_call_engineer` with low priority, every level gets a request with one approver, and every other level agrees with the code as written |
| VerificationEngine.Verify | gateaway/components/VerficationEngine.py:9-46 | three checks in order (execution status, service health, side effects); the first passes exactly for a successful execution and the other two always pass; the verdict is verified exactly when the execution succeeded, exactly when every check passes; confidence 0.95 |
| ActionsTable.CanReject | dashboard/src/Components/ActionsTable.jsx:192 | Reject is never offered beside Execute, nor on an approved, rejected, executing, executed, verified or rolled-back row |
| ActionsTable.CanApprove | dashboard/src/Components/ActionsTable.jsx:189 | Approve is offered only where Reject is and Execute is not, and never on a row without an approval request or on a settled row |
| ActionsTable.CanExecute | dashboard/src/Components/ActionsTable.jsx:190-191 | Execute is offered only on approved or executing rows, on an executing row exactly when its execution stopped part-way, and never on a pending, rejected, executed, verified or rolled-back row |
| ActionsTable.ButtonRules | dashboard/src/Components/ActionsTable.jsx:189-192 | the three button rules together: Approve implies Reject, Execute and Reject exclude each other, and settled rows offer nothing |
| ActionsTable.DeclaredButtons | dashboard/src/Components/ActionsTable.jsx:189-192 | a freshly declared row offers Approve and Reject but not Execute |
| ActionsTable.LifecycleButtons | dashboard/src/Components/ActionsTable.jsx:189-192 | after an approval only Execute is offered; after a rejection, an execution, a verification or a rollback no button is |
| ActionsTable.SecondSegment | dashboard/src/Components/ActionsTable.jsx:167 | `split(':')[1]` contains no colon, and is empty when the text has no colon |
| ActionsTable.LastSegment | dashboard/src/Components/ActionsTable.jsx:167 | the text after the only colon is the segment |
| ActionsTable.MiddleSegment | dashboard/src/Components/ActionsTable.jsx:167 | the segment stops at the second colon |
| ActionsTable.RoleLabels | dashboard/src/Components/ActionsTable.jsx:167 | approvers written `role:<name>` are listed by name, in order, joined with ", " |
| ActionsTable.ApproverLabel | dashboard/src/Components/ActionsTable.jsx:167 | the "Needs:" label contains no colon, is empty for no approvers, and for a single approver is that approver's second segment |
| ActionsTable.ApprovalColumn | dashboard/src/Components/ActionsTable.jsx:150-181 | the column shows the decision exactly when one is attached (approved styling exactly for an approval, with the approver), otherwise the request's priority and approver label exactly when a request is attached, otherwise N/A |
| ActionsTable.PendingApprovalColumn | dashboard/src/Components/ActionsTable.jsx:166-178 | an undecided row whose request names `role:default_approver` shows its priority and "default_approver" |
| ActionsTable.DeclaredApprovalColumn | dashboard/src/Components/ActionsTable.jsx:166-178 | a declared row shows normal priority and "default_approver" |
| ActionsTable.DecidedApprovalColumn | dashboard/src/Components/ActionsTable.jsx:153-165 | an approved or rejected row shows that decision and its approver |
| ActionsTable.RowClassName | dashboard/src/Components/ActionsTable.jsx:248-252 | row-rejected exactly for rejected, row-executing exactly for executing, no class otherwise |
| ActionsTable.RowClassesOfOperations | dashboard/src/Components/ActionsTable.jsx:248-252 | no operation of the mock store produces the executing class; only a rejection produces a row class |
| ActionsTable.RiskColor | dashboard/src/Components/ActionsTable.jsx:35-42 | green, orange and red exactly for low, medium and high; default for anything else |
| ActionsTable.DeclaredRiskColor | dashboard/src/Components/ActionsTable.jsx:35-42 | a declared row is never in the default colour; it is green exactly for score <= 0.3 and red exactly for score > 0.5 |
| StatisticsCards.Count | dashboard/src/Components/StatisticsCards.jsx:8-10 | `filter(p).length` never exceeds the number of actions |
| StatisticsCards.CountPermutation | dashboard/src/Components/StatisticsCards.jsx:8-10 | a filtered count does not depend on the order of the actions |
| StatisticsCards.TotalActions | dashboard/src/Components/StatisticsCards.jsx:7 | the total card is at least every other card, and zero exactly for an empty list |
| StatisticsCards.ApprovedActions | dashboard/src/Components/StatisticsCards.jsx:8 | as written: at most the total, zero exactly when no record carries a truthy `approval` field, the total exactly when every record does |
| StatisticsCards.ExecutedActions | dashboard/src/Components/StatisticsCards.jsx:9 | as written: at most the total, zero exactly when no record carries a truthy `execution` field, the total exactly when every record does |
| StatisticsCards.CardsBoundedAndOrderFree | dashboard/src/Components/StatisticsCards.jsx:7-10 | every card counts at most the total, and no card depends on the order of the actions |
| StatisticsCards.HighRiskActions | dashboard/src/Components/StatisticsCards.jsx:10 | the high-risk card is at most the total, zero exactly when no action is assessed high, and equals the total exactly when every action is |
| StatisticsCards.CardsIgnoreLifecycle | dashboard/src/Components/StatisticsCards.jsx:8-9 | records without `approval`/`execution` fields give zero on both cards, whatever their lifecycle |
| StatisticsCards.CardsMissLifecycle | dashboard/src/Components/StatisticsCards.jsx:8-9 | as written, an approved (or executed) declared action is counted zero times; the corrected card counts it once |
| StatisticsCards.IntendedCardsFollowLifecycle | dashboard/src/Components/StatisticsCards.jsx:8-9 | corrected: approving a record not yet approved adds one to the approved card, rejecting an approved one removes one, and executing a record not yet executed adds one to the executed card |
| StatisticsCards.IntendedCardsBoundedAndOrderFree | dashboard/src/Components/StatisticsCards.jsx:8-9 | the corrected cards stay within the total and do not depend on order |

## Left out

- Latency (`setTimeout`) and the promises around every mock operation are left out. Each operation takes effect at once; a rejected promise is an `Err`.
- Randomness and clocks become parameters: `Math.random()`, `Date.now()`, `new Date()`, `uuid4()` and `datetime.utcnow()`. `declareAction` reads `Date.now()` three times: for the id (mock-api.js:458), the session id (468) and the deadline (512). The model uses one reading (`millis`) for the id and the session id, and takes the deadline as its own parameter.
- MockApi.NewAction: `declareAction` reads `new Date()` twice, for the declaration's timestamp (470) and the assessment's timestamp (488). The model uses one reading (`now`) for both, so the two timestamps are always equal.
- Floating-point numbers are exact reals. `toFixed` formatting of the random times is a text parameter.
- Aliasing is not modelled. The mock store mutates the found object in place, so every holder of that object sees the change; the model replaces the record in the list. `declareAction` stores the caller's `context`, `payload` and `initiator` objects themselves, not copies.
- Absent string fields (`undefined`, `None`) are modelled as "", which the source's truthiness tests treat the same way. Context values that are not strings (the lists `related_entities` and `prior_actions`) are kept as their text.
- MockApi.MockStore.GetExplanation: the explanation sentence is kept as the values it is formatted from (`Summary`), not as formatted text. The upper-casing of the decision in the Approval column is likewise not modelled.
- MockApi.MockStore.GetExplanation: a found record without a risk assessment or approval request makes the timer callback throw, so the promise never settles. This is modelled as `None`.
- The seed records of the mock store are a constructor parameter, not the literal list.
- The gateway's language-model call is left out: the prompt, the API key, `json.loads` of the cleaned reply, `explain_risk` and `_fallback_explanation`. Only the reply clean-up and the fallback scorer are modelled.
- The gateway's `context` is a string-to-string dictionary, since the code reads it only with `.get`. The typed context record is not part of this model.
- Python's `in` on strings is `Text.Contains`. `str.strip` is `Text.Strip`, over the characters Python's `str.isspace` accepts (`Text.IsSpace`).
- The console output of the approval routing is left out, and the audit-log timestamp is a parameter.
- AtpStore.ATPStore.StoreVerification: the source reads the clock twice, once for the audit entry and once for the history entry's timestamp; the model uses the one `now` parameter for both.
- The declaration's payload is a string-to-string map, so a numeric field such as `amount` is held as its text; `Executed` copies it into the refund unchanged.
- AtpStore.ATPStore.StoreAction: the source stores `action.dict()`; the model stores the declaration value itself. The history keeps the declaration rather than its dictionary form.
- gateaway/components/ExecutionEngine.py, gateaway/main.py and dashboard/src/api.js are not part of this model. Neither are the React views beyond the predicates and cells above (icons, layout, modals).
- `gateaway/models/ExecutionResult.py`, from which the package imports `ApprovalRequest`, is not modelled; the request record follows `gateaway/models/ApprovalRequest.py`, whose `approvers` field is required.
- Audit-trail timestamps are taken from the record; the model does not prove they are non-decreasing. Records carry whatever times their operations were given.

## Findings

| source | as written | input that shows it | evidently intended | confidence | as-written member | corrected member |
|---|---|---|---|---|---|---|
| gateaway/components/ApprovalEngine.py:38 | the medium branch passes its approver list as `approvals=`, which the request record does not have, and omits the required `approvers`, so building the record fails validation | risk level "medium", any action id and score | `approvers=["on_call_engineer"]`, giving a human_required request with low priority | high (not executed) | ApprovalEngine.MediumRequestFails | ApprovalEngine.GetApprovalRequestIntended |
| dashboard/src/Components/StatisticsCards.jsx:8-9 | the approved and executed cards count records with truthy `approval` / `execution` fields; no record the store builds or updates has those fields, so both cards always show 0 | one declared action, then approved (or executed) | count records with an approved decision / with an execution result | medium (not executed) | StatisticsCards.CardsMissLifecycle | StatisticsCards.IntendedCardsFollowLifecycle |
