/** The policy rule engine. */
module Policy {
  import opened Handoff

  const BULK_ROW_THRESHOLD := 10_000
  const PII_EXPLAIN_COST_THRESHOLD := 100_000.0
  const SENSITIVE_TABLES := {"users", "orders", "invoices"}

  /** A rule with its defaults filled in; the hours are those of its condition, if it sets them. */
  datatype Rule = Rule(
    id: string, name: string, severity: string, action: string, description: string,
    hoursStart: Option<int>, hoursEnd: Option<int>)

  datatype Operation = Operation(
    kind: string, tables: set<string>, estimatedRows: int, sourceType: string, hasExternalTriggers: bool,
    hour: int, explainCost: real, piiTables: set<string>, businessStart: int, businessEnd: int)

  datatype Evaluation = Evaluation(
    triggered: seq<Rule>, hardViolation: bool, softViolation: bool,
    requiredTier: Option<RiskTier>, rejectReason: Option<string>)

  function Or(o: Option<int>, default: int): int {
    if o.Some? then o.value else default
  }

  predicate Matches(op: Operation, r: Rule) {
    var pii := op.tables * op.piiTables != {};
    if r.id == "POLICY_DDL_NO_BACKUP" then op.kind == "DROP" || op.kind == "TRUNCATE"
    else if r.id == "POLICY_PII_STANDARD_REVIEW" then pii
    else if r.id == "POLICY_EXTERNAL_INPUT" then op.sourceType == "external_user_input"
    else if r.id == "POLICY_BULK_DELETE_SENSITIVE" then
      (op.kind == "DELETE" || op.kind == "UPDATE") && op.tables * SENSITIVE_TABLES != {}
      && op.estimatedRows > BULK_ROW_THRESHOLD
    else if r.id == "POLICY_PAYMENT_WEBHOOK" then op.hasExternalTriggers
    else if r.id == "POLICY_AFTER_HOURS" then
      !(Or(r.hoursStart, op.businessStart) <= op.hour < Or(r.hoursEnd, op.businessEnd))
    else if r.id == "POLICY_PII_EXPENSIVE_READ" then
      op.kind == "SELECT" && pii && op.explainCost > PII_EXPLAIN_COST_THRESHOLD
    else false
  }

  /** The tier a rule's action demands. */
  function Demand(r: Rule): Option<RiskTier> {
    if r.action == "REQUIRE_FULL_CONTRACT" then Some(FULL_CONTRACT)
    else if r.action == "REQUIRE_STANDARD_REVIEW" then Some(STANDARD)
    else None
  }

  function Strictness(t: Option<RiskTier>): nat {
    match t case None => 0 case Some(AUTO) => 1 case Some(STANDARD) => 2 case Some(FULL_CONTRACT) => 3
  }

  function Triggered(op: Operation, rules: seq<Rule>): seq<Rule> {
    if rules == [] then []
    else
      var rest, last := Triggered(op, rules[..|rules| - 1]), rules[|rules| - 1];
      if Matches(op, last) then rest + [last] else rest
  }

  /** `tier` is the strictest demand among the matched rules. */
  predicate IsStrictestDemand(op: Operation, rules: seq<Rule>, tier: Option<RiskTier>) {
    && (forall r | r in rules && Matches(op, r) :: Strictness(Demand(r)) <= Strictness(tier))
    && (tier == None || exists r | r in rules :: Matches(op, r) && Demand(r) == tier)
  }

  predicate AnyMatched(op: Operation, rules: seq<Rule>, hard: bool) {
    exists r | r in rules :: Matches(op, r) && (r.severity == "HARD") == hard
  }

  /** The description of the first matched HARD rule. */
  function FirstReason(op: Operation, rules: seq<Rule>): Option<string> {
    if rules == [] then None
    else if Matches(op, rules[0]) && rules[0].severity == "HARD" then Some(rules[0].description)
    else FirstReason(op, rules[1..])
  }

  lemma {:induction false} FirstReasonAppends(op: Operation, rules: seq<Rule>, r: Rule)
    ensures FirstReason(op, rules + [r]) ==
      if FirstReason(op, rules).Some? then FirstReason(op, rules)
      else if Matches(op, r) && r.severity == "HARD" then Some(r.description) else None
  {
    if rules == [] {
      assert (rules + [r])[1..] == [];
    } else {
      assert (rules + [r])[1..] == rules[1..] + [r];
      FirstReasonAppends(op, rules[1..], r);
    }
  }

  lemma NothingMatched(op: Operation)
    ensures IsStrictestDemand(op, [], None) && !AnyMatched(op, [], true) && !AnyMatched(op, [], false)
  {
  }

  lemma MatchedAppends(op: Operation, rules: seq<Rule>, r: Rule)
    ensures forall hard :: AnyMatched(op, rules + [r], hard) <==>
              AnyMatched(op, rules, hard) || (Matches(op, r) && (r.severity == "HARD") == hard)
  {
    hide Matches;
    forall x
      ensures x in rules + [r] <==> x in rules || x == r
    {
    }
  }

  lemma DemandAppends(op: Operation, rules: seq<Rule>, r: Rule, tier: Option<RiskTier>)
    requires IsStrictestDemand(op, rules, tier) && tier != Some(AUTO)
    ensures IsStrictestDemand(op, rules + [r],
              if !Matches(op, r) then tier
              else if r.action == "REQUIRE_FULL_CONTRACT" then Some(FULL_CONTRACT)
              else if r.action == "REQUIRE_STANDARD_REVIEW" && tier == None then Some(STANDARD)
              else tier)
  {
    hide Matches;
    assert r in rules + [r];
    forall x
      ensures x in rules + [r] <==> x in rules || x == r
    {
    }
  }

  method EvaluateOperation(op: Operation, rules: seq<Rule>) returns (e: Evaluation)
    ensures e.triggered == Triggered(op, rules)
    ensures e.hardViolation <==> AnyMatched(op, rules, true)
    ensures e.softViolation <==> AnyMatched(op, rules, false)
    ensures IsStrictestDemand(op, rules, e.requiredTier)
    ensures e.rejectReason == FirstReason(op, rules)
  {
    hide Matches, AnyMatched, IsStrictestDemand;
    NothingMatched(op);
    var triggered, hard, soft := [], false, false;
    var tier, reason := None, None;
    for i := 0 to |rules|
      invariant triggered == Triggered(op, rules[..i])
      invariant hard == AnyMatched(op, rules[..i], true) && soft == AnyMatched(op, rules[..i], false)
      invariant IsStrictestDemand(op, rules[..i], tier) && tier != Some(AUTO)
      invariant reason == FirstReason(op, rules[..i])
    {
      var rule := rules[i];
      assert rules[..i + 1] == rules[..i] + [rule];
      FirstReasonAppends(op, rules[..i], rule);
      MatchedAppends(op, rules[..i], rule);
      DemandAppends(op, rules[..i], rule, tier);
      if Matches(op, rule) {
        triggered := triggered + [rule];
        if rule.severity == "HARD" {
          hard := true;
          if reason == None {
            reason := Some(rule.description);
          }
        } else {
          soft := true;
        }
        if rule.action == "REQUIRE_FULL_CONTRACT" {
          tier := Some(FULL_CONTRACT);
        } else if rule.action == "REQUIRE_STANDARD_REVIEW" && tier == None {
          tier := Some(STANDARD);
        }
      }
    }
    assert rules[..|rules|] == rules;
    e := Evaluation(triggered, hard, soft, tier, reason);
  }

  /** Reordering the rules changes neither the violations nor the required tier. */
  lemma OrderOfRulesDoesNotMatter(
    op: Operation, rules: seq<Rule>, other: seq<Rule>, tier: Option<RiskTier>, t: Option<RiskTier>)
    requires multiset(rules) == multiset(other)
    requires IsStrictestDemand(op, rules, tier) && IsStrictestDemand(op, other, t)
    ensures tier == t
    ensures forall hard :: AnyMatched(op, rules, hard) == AnyMatched(op, other, hard)
  {
    forall r
      ensures r in rules <==> r in other
    {
      assert r in rules <==> r in multiset(rules);
      assert r in other <==> r in multiset(other);
    }
    assert Strictness(tier) == Strictness(t);
  }

  /** There is a reject reason exactly when there is a hard violation. */
  lemma {:induction false} ReasonExactlyOnHardViolation(op: Operation, rules: seq<Rule>)
    ensures FirstReason(op, rules).Some? <==> AnyMatched(op, rules, true)
  {
    if rules != [] {
      ReasonExactlyOnHardViolation(op, rules[1..]);
      assert rules == [rules[0]] + rules[1..];
    }
  }
}
