/** The analyzer's steps 1 to 7 with their tool calls. A tool that raises MCPCallError is replaced by a default answer:
    some defaults make the operation look riskier, others make it look safer. */
module Analyzer {
  import opened Handoff
  import opened Risk
  import opened Reversibility

  datatype RowCount = RowCount(rows: int, confidence: real)

  /** What the four postgres-reader tools answer; `None` stands for MCPCallError. */
  datatype Answers = Answers(
    rowCount: Option<RowCount>,
    triggers: Option<TriggerReport>,
    cascade: Option<seq<int>>,
    softDelete: Option<bool>)

  const NO_TRIGGERS := TriggerReport([], [], false)

  /** The operations for which cascades and soft-delete columns are looked up. */
  predicate Changes(op: OperationType) {
    op == DELETE || op == UPDATE
  }

  // ----- the answers with their defaults -----

  function RowsOr(a: Answers): RowCount {
    if a.rowCount.Some? then a.rowCount.value else RowCount(0, 0.0)
  }

  function TriggersOr(a: Answers): TriggerReport {
    if a.triggers.Some? then a.triggers.value else NO_TRIGGERS
  }

  function CascadeOr(a: Answers): seq<int> {
    if a.cascade.Some? then a.cascade.value else []
  }

  predicate SoftDeleteOr(a: Answers) {
    a.softDelete == Some(true)
  }

  /** The facts an analysis leaves behind. Without a primary table no tool is called. */
  function Analyzed(op: OperationType, hasTable: bool, a: Answers, before: Facts): Facts {
    var count := if hasTable then RowsOr(a) else RowCount(0, 0.0);
    var report := if hasTable then TriggersOr(a) else NO_TRIGGERS;
    before.(
      operationType := op,
      primaryRows := count.rows,
      rowConfidence := count.confidence,
      externalTriggers := if hasTable then |report.nonTransactional| else before.externalTriggers,
      cascadeRows := if hasTable && Changes(op) then CascadeOr(a) else before.cascadeRows,
      reversibility := Some(Analyze(op, hasTable && Changes(op) && SoftDeleteOr(a), report)))
  }

  /** analyze: the contract fields are written one step after the other. */
  method RunAnalysis(op: OperationType, hasTable: bool, a: Answers, before: Facts) returns (f: Facts)
    ensures f == Analyzed(op, hasTable, a, before)
  {
    f := before.(operationType := op);
    var count := if hasTable then RowsOr(a) else RowCount(0, 0.0);
    f := f.(primaryRows := count.rows, rowConfidence := count.confidence);
    var report := NO_TRIGGERS;
    if hasTable {
      report := TriggersOr(a);
      f := f.(externalTriggers := |report.nonTransactional|);
    }
    if hasTable && Changes(op) {
      f := f.(cascadeRows := CascadeOr(a));
    }
    var softDelete := false;
    if hasTable && Changes(op) {
      softDelete := SoftDeleteOr(a);
    }
    var _, permanent := BuildTriggerAnalysis(report);
    var c := Classify(OperationName(op), softDelete, permanent, false, None);
    f := f.(reversibility := if c == None then Some(PERMANENT) else c);
  }

  // ----- what the reader can answer -----

  /** The names of the triggers that invoke a non-transactional extension, in their order. */
  function InvokingNames(ts: seq<TriggerInfo>): seq<string> {
    if ts == [] then []
    else
      var last := ts[|ts| - 1];
      InvokingNames(ts[..|ts| - 1]) + if last.invokesNonTransactional then [last.name] else []
  }

  /** list_triggers: the second list and the flag are derived from the triggers it found. */
  function ReportOf(ts: seq<TriggerInfo>): TriggerReport {
    TriggerReport(ts, InvokingNames(ts), InvokingNames(ts) != [])
  }

  /** All four tools answered, as the reader answers: its row-count confidence lies between 0.4 and 0.8. */
  predicate FromReader(a: Answers) {
    && a.rowCount.Some? && a.rowCount.value.rows >= 0 && 0.4 <= a.rowCount.value.confidence <= 0.8
    && a.triggers.Some? && a.triggers.value == ReportOf(a.triggers.value.triggers)
    && a.cascade.Some? && (forall i | 0 <= i < |a.cascade.value| :: a.cascade.value[i] >= 0)
    && a.softDelete.Some?
  }

  lemma {:induction false} AllInvoke(ts: seq<TriggerInfo>)
    requires forall i | 0 <= i < |ts| :: ts[i].invokesNonTransactional
    ensures |InvokingNames(ts)| == |ts|
  {
    if ts != [] {
      AllInvoke(ts[..|ts| - 1]);
    }
  }

  /** When all tools answer, the facts are the reader's. */
  lemma AnalysisReportsTheReader(op: OperationType, a: Answers, before: Facts)
    requires FromReader(a)
    ensures var f := Analyzed(op, true, a, before);
      && f.operationType == op
      && f.primaryRows == a.rowCount.value.rows && f.rowConfidence == a.rowCount.value.confidence
      && f.externalTriggers == |InvokingNames(a.triggers.value.triggers)|
      && f.cascadeRows == (if op == DELETE || op == UPDATE then a.cascade.value else before.cascadeRows)
      && f.precedentOutcomes == before.precedentOutcomes && f.policyViolations == before.policyViolations
      && f.requiredTier == before.requiredTier && f.promptInjectionRisk == before.promptInjectionRisk
  {
  }

  // ----- which failures close and which open -----

  /** Which tools raise. */
  datatype Failures = Failures(rowCount: bool, triggers: bool, cascade: bool, softDelete: bool)

  function Failing(a: Answers, x: Failures): Answers {
    Answers(
      if x.rowCount then None else a.rowCount,
      if x.triggers then None else a.triggers,
      if x.cascade then None else a.cascade,
      if x.softDelete then None else a.softDelete)
  }

  /** The failures do not lower the tier. */
  predicate KeepsTier(op: OperationType, hasTable: bool, x: Failures, a: Answers, before: Facts) {
    TierRank(Tier(Analyzed(op, hasTable, a, before))) <= TierRank(Tier(Analyzed(op, hasTable, Failing(a, x), before)))
  }

  /** Whatever the reader would have answered, they do not. */
  ghost predicate FailsClosed(op: OperationType, hasTable: bool, x: Failures) {
    forall a, before :: FromReader(a) ==> KeepsTier(op, hasTable, x, a, before)
  }

  /** No table, or an operation that is PERMANENT anyway, or a failure that forces FULL_CONTRACT by itself, or none that
      hides anything. */
  predicate SafePattern(op: OperationType, hasTable: bool, x: Failures) {
    || !hasTable
    || op == DDL || op == UNKNOWN
    || x.rowCount
    || (Changes(op) && x.softDelete)
    || (!x.triggers && !(Changes(op) && x.cascade))
  }

  /** A missing row count has confidence 0, a missing soft-delete answer means no such column: both force
      FULL_CONTRACT. */
  lemma SafePatternKeepsTier(op: OperationType, hasTable: bool, x: Failures, a: Answers, before: Facts)
    requires SafePattern(op, hasTable, x)
    ensures var f, g := Analyzed(op, hasTable, a, before), Analyzed(op, hasTable, Failing(a, x), before);
      Tier(g) == FULL_CONTRACT || f == g
  {
    AnalyzeExactly(op, hasTable && Changes(op) && SoftDeleteOr(Failing(a, x)),
                   if hasTable then TriggersOr(Failing(a, x)) else NO_TRIGGERS);
  }

  /** What the reader answers for a table with five external triggers, or with 60,000 rows to cascade to. */
  function Hidden(byTriggers: bool): Answers {
    var ts := if byTriggers then seq(5, _ => TriggerInfo("notify", true)) else [];
    var rows := if byTriggers then [] else [60_000];
    Answers(Some(RowCount(10, 0.8)), Some(ReportOf(ts)), Some(rows), Some(true))
  }

  /** An operation about which nothing else is known. */
  function Plain(op: OperationType): Facts {
    Facts(op, 0, [], 0, [], 1.0, 0, None, None, false)
  }

  lemma HiddenIsFullContract(op: OperationType, byTriggers: bool)
    requires !byTriggers ==> Changes(op)
    ensures FromReader(Hidden(byTriggers))
    ensures Tier(Analyzed(op, true, Hidden(byTriggers), Plain(op))) == FULL_CONTRACT
  {
    if byTriggers {
      AllInvoke(seq(5, _ => TriggerInfo("notify", true)));
    } else {
      assert [60_000][..0] == [];
    }
  }

  /** Once the answer that showed it is lost, nothing forces FULL_CONTRACT any more. */
  lemma HiddenIsLostWith(op: OperationType, x: Failures)
    requires !SafePattern(op, true, x)
    ensures Tier(Analyzed(op, true, Failing(Hidden(x.triggers), x), Plain(op))) != FULL_CONTRACT
  {
    var a := Failing(Hidden(x.triggers), x);
    var g := Analyzed(op, true, a, Plain(op));
    assert TriggersOr(a) == NO_TRIGGERS;
    AnalyzeExactly(op, Changes(op), NO_TRIGGERS);
    assert g.reversibility == Some(REVERSIBLE_AUTOMATED);
    assert g.cascadeRows == [];
  }

  /** Any other pattern lowers the tier of some operation that the reader describes in full: one that fires five
      external triggers, or one that cascades to 60,000 rows. */
  lemma OpenPatternLowersTier(op: OperationType, hasTable: bool, x: Failures) returns (a: Answers, before: Facts)
    requires !SafePattern(op, hasTable, x)
    ensures FromReader(a)
    ensures Tier(Analyzed(op, hasTable, a, before)) == FULL_CONTRACT
    ensures Tier(Analyzed(op, hasTable, Failing(a, x), before)) != FULL_CONTRACT
  {
    hide Tier, Analyzed, FromReader, Failing, Hidden;
    a, before := Hidden(x.triggers), Plain(op);
    HiddenIsFullContract(op, x.triggers);
    HiddenIsLostWith(op, x);
  }

  /** The analysis fails closed under a pattern of tool failures if and only if the pattern is safe: a failed row count
      or soft-delete lookup closes, a failed trigger or cascade lookup alone opens. A safe pattern is safe for all
      answers, also for those the reader never gives. */
  lemma FailsClosedExactly(op: OperationType, hasTable: bool, x: Failures)
    ensures FailsClosed(op, hasTable, x) <==> SafePattern(op, hasTable, x)
    ensures SafePattern(op, hasTable, x) ==> forall a, before :: KeepsTier(op, hasTable, x, a, before)
  {
    if SafePattern(op, hasTable, x) {
      forall a, before
        ensures KeepsTier(op, hasTable, x, a, before)
      {
        SafePatternKeepsTier(op, hasTable, x, a, before);
      }
    } else {
      var a, before := OpenPatternLowersTier(op, hasTable, x);
      assert !KeepsTier(op, hasTable, x, a, before);
    }
  }

  /** The class itself looks better after failures exactly when a trigger report with permanent effects was lost for an
      operation that is reversible apart from them. */
  lemma ClassImprovesExactly(op: OperationType, hasTable: bool, x: Failures, a: Answers, before: Facts)
    ensures var f, g := Analyzed(op, hasTable, a, before), Analyzed(op, hasTable, Failing(a, x), before);
      ReversibilityRank(g.reversibility) < ReversibilityRank(f.reversibility) <==>
        && hasTable && x.triggers && HasPermanentEffects(TriggersOr(a))
        && (op == SELECT || op == INSERT || (Changes(op) && SoftDeleteOr(a) && !x.softDelete))
  {
    var report := if hasTable then TriggersOr(a) else NO_TRIGGERS;
    var left := if hasTable then TriggersOr(Failing(a, x)) else NO_TRIGGERS;
    AnalyzeExactly(op, hasTable && Changes(op) && SoftDeleteOr(a), report);
    AnalyzeExactly(op, hasTable && Changes(op) && SoftDeleteOr(Failing(a, x)), left);
  }
}
