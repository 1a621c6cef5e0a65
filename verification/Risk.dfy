/** Deterministic risk classification. Scores are in hundredths: every increment is a multiple of 0.01. */
module Risk {
  import opened Handoff

  const CASCADE_ROW_THRESHOLD := 50_000
  const EXTERNAL_TRIGGER_THRESHOLD := 5
  const HIGH_RISK_SCORE := 70
  const LOW_CONFIDENCE_THRESHOLD := 0.25
  const OUTCOME_REJECTED := "REJECTED"
  const TIER_FULL_CONTRACT := "FULL_CONTRACT"

  /** The contract fields that the rules read. */
  datatype Facts = Facts(
    operationType: OperationType,
    primaryRows: int,
    cascadeRows: seq<int>,
    externalTriggers: nat,
    precedentOutcomes: seq<string>,
    rowConfidence: real,
    policyViolations: nat,
    reversibility: Option<ReversibilityClass>,
    requiredTier: Option<string>,
    promptInjectionRisk: bool)

  function Min(a: int, b: int): int {
    if a <= b then a else b
  }

  function Total(rows: seq<int>): int {
    if rows == [] then 0 else Total(rows[..|rows| - 1]) + rows[|rows| - 1]
  }

  function Rejections(outcomes: seq<string>): nat {
    if outcomes == [] then 0
    else Rejections(outcomes[..|outcomes| - 1]) + if outcomes[|outcomes| - 1] == OUTCOME_REJECTED then 1 else 0
  }

  // ----- the increments -----

  function BaseScore(op: OperationType): int {
    match op
    case SELECT => 5
    case INSERT => 15
    case UPDATE => 25
    case DELETE => 35
    case DDL => 50
    case UNKNOWN => 20
  }

  function RowIncrement(rows: int): int {
    if rows > 1_000_000 then 30
    else if rows > 100_000 then 20
    else if rows > 10_000 then 15
    else if rows > 1_000 then 8
    else 0
  }

  function CascadeIncrement(total: int): int {
    if total > 500_000 then 25
    else if total > 100_000 then 15
    else if total > 10_000 then 10
    else if total > 0 then 5
    else 0
  }

  function ConfidenceIncrement(c: real): int {
    if c < LOW_CONFIDENCE_THRESHOLD then 10 else if c < 0.5 then 5 else 0
  }

  function PartialIncrement(r: Option<ReversibilityClass>): int {
    if r == Some(PARTIAL) then 10 else 0
  }

  /** What everything but reversibility adds. */
  function OtherFactors(f: Facts): int {
    BaseScore(f.operationType) + RowIncrement(f.primaryRows) + CascadeIncrement(Total(f.cascadeRows))
    + 5 * f.externalTriggers + 5 * Rejections(f.precedentOutcomes) + ConfidenceIncrement(f.rowConfidence)
    + 10 * f.policyViolations
  }

  /** The unclamped sum. */
  function RawScore(f: Facts): int {
    OtherFactors(f) + PartialIncrement(f.reversibility)
  }

  function Score(f: Facts): int {
    Min(100, RawScore(f))
  }

  /** _compute_risk_score clamps after every addition; the result is the sum of all increments, clamped once. */
  method ComputeRiskScore(f: Facts) returns (score: int)
    ensures score == Min(100, RawScore(f))
  {
    score := BaseScore(f.operationType);
    ghost var raw := score + RowIncrement(f.primaryRows);
    if f.primaryRows > 1_000_000 {
      score := Min(100, score + 30);
    } else if f.primaryRows > 100_000 {
      score := Min(100, score + 20);
    } else if f.primaryRows > 10_000 {
      score := Min(100, score + 15);
    } else if f.primaryRows > 1_000 {
      score := Min(100, score + 8);
    }
    assert score == Min(100, raw);
    var total := SumRows(f.cascadeRows);
    score := AddCascade(score, total);
    raw := raw + CascadeIncrement(total);
    assert score == Min(100, raw);
    score := Min(100, score + 5 * f.externalTriggers);
    var rejections := CountRejections(f.precedentOutcomes);
    score := Min(100, score + 5 * rejections);
    raw := raw + 5 * f.externalTriggers + 5 * rejections + ConfidenceIncrement(f.rowConfidence);
    if f.rowConfidence < LOW_CONFIDENCE_THRESHOLD {
      score := Min(100, score + 10);
    } else if f.rowConfidence < 0.5 {
      score := Min(100, score + 5);
    }
    assert score == Min(100, raw);
    score := Min(100, score + 10 * f.policyViolations);
    if f.reversibility == Some(PARTIAL) {
      score := Min(100, score + 10);
    }
  }

  method AddCascade(start: int, total: int) returns (score: int)
    requires start <= 100
    ensures score == Min(100, start + CascadeIncrement(total))
  {
    score := start;
    if total > 500_000 {
      score := Min(100, score + 25);
    } else if total > 100_000 {
      score := Min(100, score + 15);
    } else if total > 10_000 {
      score := Min(100, score + 10);
    } else if total > 0 {
      score := Min(100, score + 5);
    }
  }

  method SumRows(rows: seq<int>) returns (total: int)
    ensures total == Total(rows)
  {
    total := 0;
    for i := 0 to |rows|
      invariant total == Total(rows[..i])
    {
      assert rows[..i + 1][..i] == rows[..i];
      total := total + rows[i];
    }
    assert rows[..|rows|] == rows;
  }

  method CountRejections(outcomes: seq<string>) returns (n: nat)
    ensures n == Rejections(outcomes)
  {
    n := 0;
    for i := 0 to |outcomes|
      invariant n == Rejections(outcomes[..i])
    {
      assert outcomes[..i + 1][..i] == outcomes[..i];
      if outcomes[i] == OUTCOME_REJECTED {
        n := n + 1;
      }
    }
    assert outcomes[..|outcomes|] == outcomes;
  }

  // ----- the tier rules -----

  /** The eight FULL_CONTRACT conditions; their order does not matter, since all give the same tier. */
  predicate ForcesFullContract(f: Facts, score: int) {
    || f.requiredTier == Some(TIER_FULL_CONTRACT)
    || f.reversibility == Some(PERMANENT)
    || OUTCOME_REJECTED in f.precedentOutcomes
    || f.promptInjectionRisk
    || Total(f.cascadeRows) > CASCADE_ROW_THRESHOLD
    || f.externalTriggers >= EXTERNAL_TRIGGER_THRESHOLD
    || score > HIGH_RISK_SCORE
    || f.rowConfidence < LOW_CONFIDENCE_THRESHOLD
  }

  predicate NoTierRequired(t: Option<string>) {
    t == None || t == Some("")
  }

  function ApplyTierRules(f: Facts, score: int): RiskTier {
    if ForcesFullContract(f, score) then FULL_CONTRACT
    else if f.operationType == SELECT && f.policyViolations == 0 && score < 30 && NoTierRequired(f.requiredTier)
    then AUTO
    else STANDARD
  }

  function Tier(f: Facts): RiskTier {
    ApplyTierRules(f, Score(f))
  }

  method ClassifyRisk(f: Facts) returns (tier: RiskTier, score: int)
    ensures tier == Tier(f) && score == Score(f)
    ensures tier != FULL_CONTRACT <==>
      && f.requiredTier != Some("FULL_CONTRACT")
      && f.reversibility != Some(PERMANENT)
      && "REJECTED" !in f.precedentOutcomes
      && !f.promptInjectionRisk
      && Total(f.cascadeRows) <= 50_000
      && f.externalTriggers <= 4
      && score <= 70
      && f.rowConfidence >= 0.25
    ensures tier == AUTO <==>
      && tier != FULL_CONTRACT
      && f.operationType == SELECT
      && f.policyViolations == 0
      && f.requiredTier in {None, Some("")}
      && score <= 29
  {
    score := ComputeRiskScore(f);
    tier := ApplyTierRules(f, score);
  }

  /** The increments as sums of steps, and where the operation types stand. */
  lemma IncrementsAreSteps(rows: int, c: real)
    ensures RowIncrement(rows) == (if rows > 1_000 then 8 else 0) + (if rows > 10_000 then 7 else 0)
                                  + (if rows > 100_000 then 5 else 0) + (if rows > 1_000_000 then 10 else 0)
    ensures CascadeIncrement(rows) == (if rows > 0 then 5 else 0) + (if rows > 10_000 then 5 else 0)
                                      + (if rows > 100_000 then 5 else 0) + (if rows > 500_000 then 10 else 0)
    ensures ConfidenceIncrement(c) == (if c < 0.5 then 5 else 0) + (if c < 0.25 then 5 else 0)
  {
  }

  /** An operation about which nothing else speaks: a SELECT is AUTO, everything else STANDARD, DDL included; and what
      it scores. */
  lemma PlainOperations(op: OperationType)
    ensures var f := Facts(op, 0, [], 0, [], 1.0, 0, None, None, false);
      && Tier(f) == (if op == SELECT then AUTO else STANDARD)
      && [Score(f.(operationType := SELECT)), Score(f.(operationType := INSERT)), Score(f.(operationType := UNKNOWN)),
          Score(f.(operationType := UPDATE)), Score(f.(operationType := DELETE)), Score(f.(operationType := DDL))]
         == [5, 15, 20, 25, 35, 50]
  {
  }

  // ----- monotonicity -----

  function TierRank(t: RiskTier): nat {
    match t case AUTO => 0 case STANDARD => 1 case FULL_CONTRACT => 2
  }

  function ReversibilityRank(r: Option<ReversibilityClass>): nat {
    match r
    case None => 0
    case Some(REVERSIBLE_AUTOMATED) => 1
    case Some(REVERSIBLE_PITR) => 2
    case Some(PARTIAL) => 3
    case Some(PERMANENT) => 4
  }

  function PolicyRank(t: Option<string>): nat {
    if NoTierRequired(t) then 0 else if t == Some(TIER_FULL_CONTRACT) then 2 else 1
  }

  /** `g` is at least as risky as `f` in every respect. */
  predicate NoRiskier(f: Facts, g: Facts) {
    && BaseScore(f.operationType) <= BaseScore(g.operationType)
    && f.primaryRows <= g.primaryRows
    && Total(f.cascadeRows) <= Total(g.cascadeRows)
    && f.externalTriggers <= g.externalTriggers
    && Rejections(f.precedentOutcomes) <= Rejections(g.precedentOutcomes)
    && f.rowConfidence >= g.rowConfidence
    && f.policyViolations <= g.policyViolations
    && ReversibilityRank(f.reversibility) <= ReversibilityRank(g.reversibility)
    && PolicyRank(f.requiredTier) <= PolicyRank(g.requiredTier)
    && (f.promptInjectionRisk ==> g.promptInjectionRisk)
  }

  lemma {:induction false} RejectionsCountMembers(outcomes: seq<string>)
    ensures OUTCOME_REJECTED in outcomes <==> Rejections(outcomes) > 0
  {
    if outcomes != [] {
      RejectionsCountMembers(outcomes[..|outcomes| - 1]);
      assert outcomes == outcomes[..|outcomes| - 1] + [outcomes[|outcomes| - 1]];
    }
  }

  lemma RejectionForcesFullContract(f: Facts)
    requires OUTCOME_REJECTED in f.precedentOutcomes
    ensures Tier(f) == FULL_CONTRACT
  {
  }

  /** The tier is monotone in every risk factor at once. */
  lemma TierIsMonotone(f: Facts, g: Facts)
    requires NoRiskier(f, g)
    ensures TierRank(Tier(f)) <= TierRank(Tier(g))
  {
    RejectionsCountMembers(f.precedentOutcomes);
    RejectionsCountMembers(g.precedentOutcomes);
    if g.reversibility != Some(PERMANENT) {
      assert PartialIncrement(f.reversibility) <= PartialIncrement(g.reversibility);
      assert RawScore(f) <= RawScore(g);
    }
  }

  /** The score alone is not. Over the whole order, a riskier operation scores lower exactly when it goes from PARTIAL
      to PERMANENT, the other factors make up for less than the 0.10 that this takes away, and the clamp does not
      hide it. */
  lemma ScoreDropsExactly(f: Facts, g: Facts)
    requires NoRiskier(f, g)
    ensures Score(g) < Score(f) <==>
      && f.reversibility == Some(PARTIAL)
      && g.reversibility == Some(PERMANENT)
      && OtherFactors(g) - OtherFactors(f) < 10
      && OtherFactors(g) < 100
  {
    assert OtherFactors(f) <= OtherFactors(g);
  }

  /** A pair that differs in more than reversibility: twice a DELETE, the riskier one on more rows. */
  lemma RiskierCanScoreLower() returns (f: Facts, g: Facts)
    ensures NoRiskier(f, g) && f.primaryRows < g.primaryRows
    ensures Score(f) == 45 && Score(g) == 43
  {
    f := Facts(DELETE, 0, [], 0, [], 1.0, 0, Some(PARTIAL), None, false);
    g := f.(primaryRows := 2_000, reversibility := Some(PERMANENT));
  }

  /** With nothing else changed, PARTIAL to PERMANENT lowers the score unless it is clamped anyway. */
  lemma PermanentScoresBelowPartial(f: Facts)
    requires f.reversibility == Some(PARTIAL)
    ensures var g := f.(reversibility := Some(PERMANENT));
      && NoRiskier(f, g)
      && Tier(g) == FULL_CONTRACT
      && (Score(g) < Score(f) <==> RawScore(f) < 110)
  {
    var g := f.(reversibility := Some(PERMANENT));
    ScoreDropsExactly(f, g);
  }
}
