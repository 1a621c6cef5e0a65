/** RISK_GATE: the policy evaluation, the preliminary score, and which operations leave the pipeline here. */
module RiskGate {
  import opened Handoff
  import opened Policy
  import opened Protocol
  import Reversibility

  const EXTERNAL_USER_INPUT := "external_user_input"

  datatype Plan = Plan(cost: real, rows: int)

  /** What the gate has to go by. `plan` is None when EXPLAIN fails; `policyAnswers` is false when the policy
      store does. */
  datatype Submission = Submission(
    operationType: OperationType,
    tables: set<string>,
    sourceType: string,
    hour: int,
    plan: Option<Plan>,
    piiTables: set<string>,
    policyAnswers: bool)

  /** A failed EXPLAIN counts as an expensive one. */
  function Cost(s: Submission): real {
    if s.plan.Some? then s.plan.value.cost else 999_999.0
  }

  /** The question put to the policy store. Triggers are not known yet. */
  function PolicyQuestion(s: Submission): Operation {
    Operation(Reversibility.OperationName(s.operationType), s.tables, if s.plan.Some? then s.plan.value.rows else 0,
              s.sourceType, false, s.hour, Cost(s), s.piiTables, 7, 20)
  }

  // ----- the preliminary score, in thousandths -----

  function Least(a: int, b: int): int {
    if a <= b then a else b
  }

  function Base(op: OperationType): int {
    match op
    case SELECT => 50
    case INSERT => 200
    case UPDATE => 400
    case DELETE => 600
    case DDL => 850
    case UNKNOWN => 500
  }

  function CostIncrement(cost: real): int {
    (if cost > 50_000.0 then 50 else 0) + (if cost > 100_000.0 then 50 else 0) + (if cost > 500_000.0 then 100 else 0)
  }

  function RawScore(s: Submission, violations: bool): int {
    Base(s.operationType) + CostIncrement(Cost(s)) + (if violations then 100 else 0)
    + if s.sourceType == EXTERNAL_USER_INPUT then 150 else 0
  }

  /** _compute_risk_score of the gate: clamped after every addition, which equals clamping once. */
  method ComputeScore(s: Submission, violations: bool) returns (score: int)
    ensures score == Least(1000, RawScore(s, violations))
  {
    if s.operationType == SELECT {
      score := 50;
    } else if s.operationType == INSERT {
      score := 200;
    } else if s.operationType == UPDATE {
      score := 400;
    } else if s.operationType == DELETE {
      score := 600;
    } else if s.operationType == DDL {
      score := 850;
    } else {
      score := 500;
    }
    var cost := Cost(s);
    if cost > 500_000.0 {
      score := Least(1000, score + 200);
    } else if cost > 100_000.0 {
      score := Least(1000, score + 100);
    } else if cost > 50_000.0 {
      score := Least(1000, score + 50);
    }
    if violations {
      score := Least(1000, score + 100);
    }
    if s.sourceType == EXTERNAL_USER_INPUT {
      score := Least(1000, score + 150);
    }
  }

  function TierName(t: Option<RiskTier>): Option<string> {
    match t
    case None => None
    case Some(AUTO) => Some("AUTO")
    case Some(STANDARD) => Some("STANDARD")
    case Some(FULL_CONTRACT) => Some("FULL_CONTRACT")
  }

  /** No rule says anything about the submission, or the policy store cannot be asked. */
  predicate Unobjected(s: Submission, rules: seq<Rule>) {
    !s.policyAnswers || forall r | r in rules :: !Matches(PolicyQuestion(s), r)
  }

  /** run_risk_gate. For every rule list, the run leaves the pipeline here exactly on a hard violation, or when it is a
      SELECT to which no rule objects and which is not an expensive one from an external user. */
  method RunRiskGate(s: Submission, rules: seq<Rule>) returns (g: GateOutcome)
    ensures g.operationType == s.operationType
    ensures g.hardViolation <==> s.policyAnswers && AnyMatched(PolicyQuestion(s), rules, true)
    ensures g.violations == if s.policyAnswers then |Triggered(PolicyQuestion(s), rules)| else 0
    ensures g.riskScore == Least(1000, RawScore(s, g.violations > 0))
    ensures g.requiredTier in {None, Some("STANDARD"), Some("FULL_CONTRACT")}
    ensures !s.policyAnswers ==> g.requiredTier == None
    ensures s.policyAnswers ==> forall t | IsStrictestDemand(PolicyQuestion(s), rules, t) ::
              && (g.requiredTier == Some("FULL_CONTRACT") <==> t == Some(FULL_CONTRACT))
              && (g.requiredTier == Some("STANDARD") <==> t == Some(STANDARD))
    ensures RouteFromRiskGate(g) == Audit <==>
              || g.hardViolation
              || (&& s.operationType == SELECT && Unobjected(s, rules)
                  && (s.sourceType == EXTERNAL_USER_INPUT ==> Cost(s) <= 100_000.0))
  {
    hide Matches, AnyMatched, IsStrictestDemand;
    var e := Evaluation([], false, false, None, None);
    if s.policyAnswers {
      e := EvaluateOperation(PolicyQuestion(s), rules);
      TriggeredExactly(PolicyQuestion(s), rules);
      DemandNeedsMatch(PolicyQuestion(s), rules, e.requiredTier);
      DemandIsUnique(PolicyQuestion(s), rules, e.requiredTier);
    }
    var score := ComputeScore(s, |e.triggered| > 0);
    g := GateOutcome(e.hardViolation, s.operationType, |e.triggered|, score, TierName(e.requiredTier));
  }

  lemma {:induction false} TriggeredExactly(op: Operation, rules: seq<Rule>)
    ensures Triggered(op, rules) == [] <==> forall r | r in rules :: !Matches(op, r)
  {
    hide Matches;
    if rules != [] {
      var n := |rules| - 1;
      TriggeredExactly(op, rules[..n]);
      assert rules == rules[..n] + [rules[n]];
      forall r
        ensures r in rules <==> r in rules[..n] || r == rules[n]
      {
      }
    }
  }

  lemma DemandIsUnique(op: Operation, rules: seq<Rule>, tier: Option<RiskTier>)
    requires IsStrictestDemand(op, rules, tier)
    ensures tier != Some(AUTO) && forall t | IsStrictestDemand(op, rules, t) :: t == tier
  {
    hide Matches;
    forall t | IsStrictestDemand(op, rules, t)
      ensures t == tier
    {
      OrderOfRulesDoesNotMatter(op, rules, rules, tier, t);
    }
  }

  lemma DemandNeedsMatch(op: Operation, rules: seq<Rule>, tier: Option<RiskTier>)
    requires IsStrictestDemand(op, rules, tier)
    ensures (forall r | r in rules :: !Matches(op, r)) ==> tier == None
  {
    hide Matches;
  }

  /** A failed EXPLAIN is taken for the most expensive plan: no plan scores higher. */
  lemma FailedExplainFailsClosed(s: Submission, plan: Plan, violations: bool)
    ensures RawScore(s.(plan := Some(plan)), violations) <= RawScore(s.(plan := None), violations)
    ensures s.plan == None && s.operationType == SELECT && TouchesPii(PolicyQuestion(s)) ==>
              Catches(7, PolicyQuestion(s))
  {
  }

  // ----- the rules the repository ships -----

  function Ruling(id: string, severity: string, action: string): Rule {
    Rule(id, id, severity, action, id, None, None)
  }

  function Default(k: nat): Rule
    requires k < 8
  {
    match k
    case 0 => Ruling("POLICY_DDL_NO_BACKUP", "HARD", "AUTO_REJECT")
    case 1 => Ruling("POLICY_PII_STANDARD_REVIEW", "SOFT", "REQUIRE_FULL_CONTRACT")
    case 2 => Ruling("POLICY_EXTERNAL_INPUT", "SOFT", "REQUIRE_FULL_CONTRACT")
    case 3 => Ruling("POLICY_BULK_DELETE_SENSITIVE", "SOFT", "REQUIRE_FULL_CONTRACT")
    case 4 => Ruling("POLICY_PAYMENT_WEBHOOK", "SOFT", "REQUIRE_FULL_CONTRACT")
    case 5 => Ruling("POLICY_AFTER_HOURS", "SOFT", "QUEUE_UNTIL_HOURS").(hoursStart := Some(7), hoursEnd := Some(20))
    case 6 => Ruling("POLICY_AUTO_REJECT_PATTERN", "HARD", "AUTO_REJECT")
    case 7 => Ruling("POLICY_PII_EXPENSIVE_READ", "SOFT", "REQUIRE_FULL_CONTRACT")
  }

  /** The default rules, in any order. */
  ghost predicate AreDefault(rules: seq<Rule>) {
    forall r :: r in rules <==> exists k: nat | k < 8 :: r == Default(k)
  }

  predicate TouchesPii(op: Operation) {
    exists t :: t in op.tables && t in op.piiTables
  }

  predicate BulkOnSensitive(op: Operation) {
    && (op.kind == "DELETE" || op.kind == "UPDATE")
    && op.estimatedRows > 10_000
    && ("users" in op.tables || "orders" in op.tables || "invoices" in op.tables)
  }

  /** What the rules are meant to catch. */
  predicate Catches(k: nat, op: Operation)
    requires k < 8
  {
    match k
    case 0 => op.kind == "DROP" || op.kind == "TRUNCATE"
    case 1 => TouchesPii(op)
    case 2 => op.sourceType == EXTERNAL_USER_INPUT
    case 3 => BulkOnSensitive(op)
    case 4 => op.hasExternalTriggers
    case 5 => op.hour < 7 || op.hour >= 20
    case 6 => false
    case 7 => op.kind == "SELECT" && TouchesPii(op) && op.explainCost > 100_000.0
  }

  lemma Overlaps(a: set<string>, b: set<string>)
    ensures a * b != {} <==> exists t :: t in a && t in b
  {
    if t :| t in a && t in b {
      assert t in a * b;
    }
  }

  lemma SensitiveOverlap(a: set<string>)
    ensures a * SENSITIVE_TABLES != {} <==> "users" in a || "orders" in a || "invoices" in a
  {
    Overlaps(a, SENSITIVE_TABLES);
  }

  lemma FirstFourMatch(op: Operation, k: nat)
    requires k < 4
    ensures Matches(op, Default(k)) <==> Catches(k, op)
  {
    Overlaps(op.tables, op.piiTables);
    SensitiveOverlap(op.tables);
  }

  lemma LastFourMatch(op: Operation, k: nat)
    requires 4 <= k < 8
    ensures Matches(op, Default(k)) <==> Catches(k, op)
  {
    Overlaps(op.tables, op.piiTables);
  }

  /** Each default rule matches exactly what it is meant to catch. */
  lemma DefaultMatches(op: Operation, k: nat)
    requires k < 8
    ensures Matches(op, Default(k)) <==> Catches(k, op)
  {
    hide Matches, Default, Catches;
    if k < 4 {
      FirstFourMatch(op, k);
    } else {
      LastFourMatch(op, k);
    }
  }

  lemma DefaultAttributes(k: nat)
    requires k < 8
    ensures Default(k).severity == "HARD" <==> k == 0 || k == 6
    ensures Demand(Default(k)) == if k == 0 || k == 5 || k == 6 then None else Some(FULL_CONTRACT)
  {
  }

  /** Some rule that demands FULL_CONTRACT catches the operation. */
  predicate DemandsFull(op: Operation) {
    TouchesPii(op) || op.sourceType == EXTERNAL_USER_INPUT || BulkOnSensitive(op) || op.hasExternalTriggers
  }

  predicate Caught(op: Operation) {
    exists k: nat | k < 8 :: Catches(k, op)
  }

  lemma CaughtExactly(op: Operation)
    ensures Caught(op) <==>
              op.kind == "DROP" || op.kind == "TRUNCATE" || DemandsFull(op) || op.hour < 7 || op.hour >= 20
    ensures DemandsFull(op) <==> exists k: nat | k < 8 :: Catches(k, op) && k != 0 && k != 5 && k != 6
  {
    assert Catches(0, op) <==> op.kind == "DROP" || op.kind == "TRUNCATE";
    assert Catches(5, op) <==> op.hour < 7 || op.hour >= 20;
    assert DemandsFull(op) <==> Catches(1, op) || Catches(2, op) || Catches(3, op) || Catches(4, op);
    assert Catches(7, op) ==> DemandsFull(op);
  }

  lemma RulesCatch(op: Operation, rules: seq<Rule>)
    requires AreDefault(rules)
    ensures AnyMatched(op, rules, true) <==> Catches(0, op) || Catches(6, op)
    ensures (exists r | r in rules :: Matches(op, r)) <==> Caught(op)
    ensures IsStrictestDemand(op, rules, if DemandsFull(op) then Some(FULL_CONTRACT) else None)
  {
    hide Matches, Catches, Demand, DemandsFull, Default;
    CaughtExactly(op);
    forall k: nat | k < 8
      ensures Default(k) in rules && (Matches(op, Default(k)) <==> Catches(k, op))
      ensures Default(k).severity == "HARD" <==> k == 0 || k == 6
      ensures Demand(Default(k)) == if k == 0 || k == 5 || k == 6 then None else Some(FULL_CONTRACT)
    {
      DefaultMatches(op, k);
      DefaultAttributes(k);
    }
  }

  /** What the default rules say of any operation: only DROP and TRUNCATE violate a hard rule, and the demanded tier is
      FULL_CONTRACT or none. */
  lemma DefaultPolicyExactly(op: Operation, rules: seq<Rule>, tier: Option<RiskTier>)
    requires AreDefault(rules) && IsStrictestDemand(op, rules, tier)
    ensures AnyMatched(op, rules, true) <==> op.kind == "DROP" || op.kind == "TRUNCATE"
    ensures tier == if DemandsFull(op) then Some(FULL_CONTRACT) else None
    ensures (exists r | r in rules :: Matches(op, r)) <==>
              op.kind == "DROP" || op.kind == "TRUNCATE" || DemandsFull(op) || op.hour < 7 || op.hour >= 20
  {
    hide Matches, AnyMatched, IsStrictestDemand, DemandsFull, AreDefault;
    RulesCatch(op, rules);
    CaughtExactly(op);
    OrderOfRulesDoesNotMatter(op, rules, rules, tier, if DemandsFull(op) then Some(FULL_CONTRACT) else None);
  }

  /** The tier the gate learns from the default rules. */
  lemma DefaultGateTier(s: Submission, rules: seq<Rule>, tier: Option<RiskTier>)
    requires s.policyAnswers && AreDefault(rules) && IsStrictestDemand(PolicyQuestion(s), rules, tier)
    ensures tier == Some(FULL_CONTRACT) <==>
      || (exists t :: t in s.tables && t in s.piiTables)
      || s.sourceType == EXTERNAL_USER_INPUT
      || (&& (s.operationType == DELETE || s.operationType == UPDATE)
          && s.plan.Some? && s.plan.value.rows > 10_000
          && ("users" in s.tables || "orders" in s.tables || "invoices" in s.tables))
    ensures tier == None || tier == Some(FULL_CONTRACT)
  {
    hide Matches, AnyMatched, IsStrictestDemand, AreDefault;
    DefaultPolicyExactly(PolicyQuestion(s), rules, tier);
  }

  /** A rule that sets no hours of its own goes by 7 to 20. */
  lemma BusinessHours(s: Submission, severity: string, action: string)
    ensures Matches(PolicyQuestion(s), Ruling("POLICY_AFTER_HOURS", severity, action)) <==> s.hour < 7 || s.hour >= 20
  {
  }

  /** With the default rules the gate takes out exactly the SELECTs that do not come from an external user, touch no PII
      table and fall in business hours; the EXPLAIN cost plays no part. It rejects nothing: the rule against DROP and
      TRUNCATE looks for these words, and the gate says DDL. */
  lemma DefaultGateExactly(s: Submission, rules: seq<Rule>)
    requires s.policyAnswers && AreDefault(rules)
    ensures !AnyMatched(PolicyQuestion(s), rules, true)
    ensures s.operationType == SELECT ==>
              (Unobjected(s, rules) <==>
                 && (forall t | t in s.tables :: t !in s.piiTables)
                 && s.sourceType != EXTERNAL_USER_INPUT && 7 <= s.hour < 20)
  {
    hide Matches, AnyMatched, IsStrictestDemand, AreDefault;
    var q := PolicyQuestion(s);
    RulesCatch(q, rules);
    CaughtExactly(q);
  }
}
