/** The part of the HandoffContract schema that the approval protocol and the risk rules read. */
module Handoff {

  datatype Option<+T> = None | Some(value: T)

  datatype OperationType = DDL | DELETE | UPDATE | INSERT | SELECT | UNKNOWN

  datatype ReversibilityClass = REVERSIBLE_AUTOMATED | REVERSIBLE_PITR | PARTIAL | PERMANENT

  datatype RiskTier = AUTO | STANDARD | FULL_CONTRACT

  datatype ApprovalState = PENDING | APPROVED | REJECTED | MODIFIED | AUTO_REJECTED | TIMED_OUT

  datatype WorkflowStatus =
    | RUNNING
    | PENDING_HUMAN_APPROVAL
    | STATUS_APPROVED
    | STATUS_REJECTED
    | STATUS_AUTO_REJECTED
    | AUTO_EXECUTED
    | COMPLETED
    | FAILED
    | STATUS_TIMED_OUT

  /** The six human-review fields of a contract, as one value. */
  datatype Verdict = Verdict(
    state: ApprovalState,
    humanDecision: Option<string>,
    reason: Option<string>,
    timestamp: Option<nat>,
    approver: Option<string>,
    constraints: Option<string>)

  /** What INTAKE writes. */
  const UNDECIDED := Verdict(PENDING, None, None, None, None, None)

  /** One call of record_decision: `at` is the clock reading it stores. */
  datatype DecisionPost = DecisionPost(
    decision: string,
    reason: string,
    approver: string,
    constraints: Option<string>,
    at: nat)

  const APPROVE := "APPROVE"
  const REJECT := "REJECT"
  const MODIFY := "MODIFY"
  const REQUEST_PREREQUISITE := "REQUEST_PREREQUISITE"

  const TIMEOUT_REASON := "Human review timed out - auto-rejected by ContraGate."

  /** The decision map of record_decision; an unknown decision rejects. */
  function DecidedState(decision: string): ApprovalState {
    if decision == APPROVE then APPROVED
    else if decision == MODIFY then MODIFIED
    else REJECTED
  }

  /** The fields record_decision leaves behind; empty constraints keep the earlier ones. */
  function Decide(v: Verdict, p: DecisionPost): Verdict {
    Verdict(
      DecidedState(p.decision),
      Some(p.decision),
      Some(p.reason),
      Some(p.at),
      Some(p.approver),
      if p.constraints.Some? && p.constraints.value != "" then p.constraints else v.constraints)
  }

  /** The states that update_contract never overwrites. */
  predicate Preserved(state: ApprovalState) {
    state == APPROVED || state == REJECTED || state == TIMED_OUT
  }

  /** What update_contract leaves in the incoming contract, given the stored one. */
  function Merge(stored: Verdict, incoming: Verdict): Verdict {
    if Preserved(stored.state) then stored else incoming
  }

  /** What the timeout branch of HUMAN_REVIEW writes. */
  function Expire(v: Verdict, at: nat): Verdict {
    v.(state := TIMED_OUT, reason := Some(TIMEOUT_REASON), timestamp := Some(at))
  }
}
