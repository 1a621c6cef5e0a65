/** Reversibility classification, the analyzer's fail-closed use of it, and what the contract derives from it. */
module Reversibility {
  import opened Handoff
  import Risk

  const DDL_OPERATIONS := {"DROP", "TRUNCATE", "ALTER", "CREATE", "DDL", "drop", "truncate", "alter", "create", "ddl"}

  function UpperChar(c: char): char {
    if 'a' <= c <= 'z' then c - 'a' + 'A' else c
  }

  function Upper(s: string): string {
    seq(|s|, i requires 0 <= i < |s| => UpperChar(s[i]))
  }

  /** One trigger as listed by the reader, and the names it lists as non-transactional. */
  datatype TriggerInfo = TriggerInfo(name: string, invokesNonTransactional: bool)

  datatype TriggerReport = TriggerReport(triggers: seq<TriggerInfo>, nonTransactional: seq<string>, permanentFlag: bool)

  predicate IsNonTransactional(r: TriggerReport, t: TriggerInfo) {
    t.invokesNonTransactional || t.name in r.nonTransactional
  }

  predicate HasPermanentEffects(r: TriggerReport) {
    r.permanentFlag || exists i | 0 <= i < |r.triggers| :: IsNonTransactional(r, r.triggers[i])
  }

  /** The non-transactional triggers among `ts`, in their order. */
  function OnlyNonTransactional(r: TriggerReport, ts: seq<TriggerInfo>): seq<TriggerInfo> {
    if ts == [] then []
    else
      var last := ts[|ts| - 1];
      OnlyNonTransactional(r, ts[..|ts| - 1]) + if IsNonTransactional(r, last) then [last] else []
  }

  /** Each is listed as often as it was reported, and no other trigger is listed. */
  lemma {:induction false} ListsEachAsReported(r: TriggerReport, ts: seq<TriggerInfo>, t: TriggerInfo)
    ensures multiset(OnlyNonTransactional(r, ts))[t] == if IsNonTransactional(r, t) then multiset(ts)[t] else 0
  {
    hide IsNonTransactional;
    if ts != [] {
      var n := |ts| - 1;
      ListsEachAsReported(r, ts[..n], t);
      assert ts == ts[..n] + [ts[n]];
    }
  }

  lemma {:induction false} ListedExactlyIfOneExists(r: TriggerReport, ts: seq<TriggerInfo>)
    ensures OnlyNonTransactional(r, ts) != [] <==> exists i | 0 <= i < |ts| :: IsNonTransactional(r, ts[i])
  {
    hide IsNonTransactional;
    if ts != [] {
      var n := |ts| - 1;
      ListedExactlyIfOneExists(r, ts[..n]);
      assert forall i | 0 <= i < n :: ts[..n][i] == ts[i];
    }
  }

  lemma EitherMarkCounts(r: TriggerReport)
    ensures HasPermanentEffects(r) <==> r.permanentFlag || exists i | 0 <= i < |r.triggers| ::
              r.triggers[i].invokesNonTransactional || r.triggers[i].name in r.nonTransactional
  {
  }

  /** build_trigger_analysis_from_mcp: the non-transactional triggers in their order, and the combined flag. */
  method BuildTriggerAnalysis(r: TriggerReport) returns (nonTransactional: seq<TriggerInfo>, permanent: bool)
    ensures permanent == HasPermanentEffects(r)
    ensures permanent <==> r.permanentFlag || exists i | 0 <= i < |r.triggers| ::
              r.triggers[i].invokesNonTransactional || r.triggers[i].name in r.nonTransactional
    ensures nonTransactional == OnlyNonTransactional(r, r.triggers)
  {
    hide IsNonTransactional;
    nonTransactional := [];
    for i := 0 to |r.triggers|
      invariant nonTransactional == OnlyNonTransactional(r, r.triggers[..i])
    {
      assert r.triggers[..i + 1][..i] == r.triggers[..i];
      if IsNonTransactional(r, r.triggers[i]) {
        nonTransactional := nonTransactional + [r.triggers[i]];
      }
    }
    assert r.triggers[..|r.triggers|] == r.triggers;
    ListedExactlyIfOneExists(r, r.triggers);
    permanent := r.permanentFlag || |nonTransactional| > 0;
    EitherMarkCounts(r);
  }

  /** classify_reversibility; `None` stands for ValueError. */
  function Classify(
    operation: string, softDelete: bool, permanentEffects: bool, pitr: bool, window: Option<real>)
    : Option<ReversibilityClass>
  {
    if pitr && (window == None || window.value <= 0.0) then None
    else if operation in DDL_OPERATIONS then Some(PERMANENT)
    else
      var op := Upper(operation);
      if op == "SELECT" || op == "READ" || op == "INSERT" then
        Some(if permanentEffects then PARTIAL else REVERSIBLE_AUTOMATED)
      else if op == "DELETE" || op == "UPDATE" then
        if softDelete then Some(if permanentEffects then PARTIAL else REVERSIBLE_AUTOMATED)
        else if pitr then Some(if permanentEffects then PARTIAL else REVERSIBLE_PITR)
        else Some(PERMANENT)
      else None
  }

  function OperationName(op: OperationType): string {
    match op
    case DDL => "DDL"
    case DELETE => "DELETE"
    case UPDATE => "UPDATE"
    case INSERT => "INSERT"
    case SELECT => "SELECT"
    case UNKNOWN => "UNKNOWN"
  }

  /** classify_reversibility on the known operations, PITR included. It raises exactly when a confirmed PITR has no
      window, or for an unknown operation; DDL is never reversible, and neither is a change without a soft-delete column
      or PITR. */
  lemma ClassifyExactly(op: OperationType, softDelete: bool, permanentEffects: bool, pitr: bool, window: Option<real>)
    ensures var c := Classify(OperationName(op), softDelete, permanentEffects, pitr, window);
      && (c == None <==> op == UNKNOWN || (pitr && (window == None || window.value <= 0.0)))
      && (c.Some? ==>
            && (c.value == PERMANENT <==> op == DDL || ((op == DELETE || op == UPDATE) && !softDelete && !pitr))
            && (c.value == REVERSIBLE_PITR <==>
                  (op == DELETE || op == UPDATE) && !softDelete && pitr && !permanentEffects)
            && (c.value == PARTIAL <==> c.value != PERMANENT && permanentEffects))
  {
    UpperOfOperations();
    if pitr && (window == None || window.value <= 0.0) {
      assert Classify(OperationName(op), softDelete, permanentEffects, pitr, window) == None;
    }
  }

  /** Outside the listed DDL words the spelling in capitals decides. */
  lemma ClassifyIgnoresCase(
    s: string, t: string, softDelete: bool, permanentEffects: bool, pitr: bool, window: Option<real>)
    requires Upper(s) == Upper(t) && s !in DDL_OPERATIONS && t !in DDL_OPERATIONS
    ensures Classify(s, softDelete, permanentEffects, pitr, window)
            == Classify(t, softDelete, permanentEffects, pitr, window)
  {
    hide Upper;
  }

  /** READ is SELECT. */
  lemma ReadIsSelect(softDelete: bool, permanentEffects: bool, pitr: bool, window: Option<real>)
    ensures Classify("READ", softDelete, permanentEffects, pitr, window)
            == Classify("SELECT", softDelete, permanentEffects, pitr, window)
  {
    hide Upper;
    UppersOfDml();
  }

  /** So the lower-case spellings are the same operations. */
  lemma UppersOfDml()
    ensures Upper("select") == Upper("SELECT") == "SELECT"
    ensures Upper("insert") == Upper("INSERT") == "INSERT"
    ensures Upper("update") == Upper("UPDATE") == "UPDATE"
    ensures Upper("delete") == Upper("DELETE") == "DELETE"
    ensures Upper("read") == Upper("READ") == "READ"
  {
  }

  /** The analyzer's step 7: no PITR is ever confirmed, and a classification error means PERMANENT. */
  function Analyze(op: OperationType, softDelete: bool, r: TriggerReport): ReversibilityClass {
    var c := Classify(OperationName(op), softDelete, HasPermanentEffects(r), false, None);
    if c == None then PERMANENT else c.value
  }

  lemma UpperOfOperations()
    ensures forall op: OperationType :: Upper(OperationName(op)) == OperationName(op)
  {
    forall op: OperationType
      ensures Upper(OperationName(op)) == OperationName(op)
    {
      var s := OperationName(op);
      assert forall i | 0 <= i < |s| :: UpperChar(s[i]) == s[i];
    }
  }

  /** What the analyzer writes, in full. */
  lemma AnalyzeExactly(op: OperationType, softDelete: bool, r: TriggerReport)
    ensures Analyze(op, softDelete, r) ==
      if op == SELECT || op == INSERT || ((op == DELETE || op == UPDATE) && softDelete)
      then if HasPermanentEffects(r) then PARTIAL else REVERSIBLE_AUTOMATED
      else PERMANENT
  {
    UpperOfOperations();
  }

  // ----- the contract built on it -----

  function RollbackPlan(
    reversibility: Option<ReversibilityClass>, op: OperationType, table: string, condition: string)
    : Option<string>
  {
    match reversibility
    case None => None
    case Some(PERMANENT) => None
    case Some(REVERSIBLE_AUTOMATED) =>
      var t := if table == "" then "the affected table" else table;
      if op == INSERT then Some("DELETE FROM " + t + " WHERE [match the INSERT's identifying condition].")
      else if op == DELETE || op == UPDATE then
        Some("Restore rows to " + t + ": requires restore from a pre-execution snapshot or backup ("
             + (if condition == "" then "no condition recorded" else "original filter: " + condition) + ").")
      else Some("Automated recovery: restore from pre-execution snapshot if available.")
    case Some(REVERSIBLE_PITR) => Some("Point-in-time recovery required.")
    case Some(PARTIAL) => Some("Partial recovery possible.")
  }

  predicate RequiresAcknowledgement(reversibility: Option<ReversibilityClass>) {
    reversibility == Some(PERMANENT)
  }

  /** After a full analysis the three marks of irreversibility coincide and force FULL_CONTRACT;
      any lower tier means a read, an insert, or a change that a soft-delete column can undo. */
  lemma AnalysisFailsClosed(
    op: OperationType, softDelete: bool, r: TriggerReport, f: Risk.Facts, table: string, condition: string)
    requires f.operationType == op && f.reversibility == Some(Analyze(op, softDelete, r))
    ensures RollbackPlan(f.reversibility, op, table, condition) == None <==> f.reversibility == Some(PERMANENT)
    ensures RequiresAcknowledgement(f.reversibility) <==> f.reversibility == Some(PERMANENT)
    ensures f.reversibility == Some(PERMANENT) ==> Risk.Tier(f) == FULL_CONTRACT
    ensures Risk.Tier(f) != FULL_CONTRACT ==>
              op == SELECT || op == INSERT || ((op == DELETE || op == UPDATE) && softDelete)
  {
    AnalyzeExactly(op, softDelete, r);
  }

  /** A report that lists at least the same non-transactional triggers. */
  predicate Extends(r: TriggerReport, s: TriggerReport) {
    && (r.permanentFlag ==> s.permanentFlag)
    && (forall n | n in r.nonTransactional :: n in s.nonTransactional)
    && |r.triggers| <= |s.triggers| && s.triggers[..|r.triggers|] == r.triggers
  }

  /** More non-transactional triggers never improve the class, and the tier does not drop either. */
  lemma MoreTriggersNeverHelp(op: OperationType, softDelete: bool, r: TriggerReport, s: TriggerReport, f: Risk.Facts)
    requires Extends(r, s) && f.operationType == op
    ensures var a, b := Some(Analyze(op, softDelete, r)), Some(Analyze(op, softDelete, s));
      && Risk.ReversibilityRank(a) <= Risk.ReversibilityRank(b)
      && Risk.TierRank(Risk.Tier(f.(reversibility := a))) <= Risk.TierRank(Risk.Tier(f.(reversibility := b)))
  {
    AnalyzeExactly(op, softDelete, r);
    AnalyzeExactly(op, softDelete, s);
    if HasPermanentEffects(r) && !r.permanentFlag {
      var i :| 0 <= i < |r.triggers| && IsNonTransactional(r, r.triggers[i]);
      assert s.triggers[i] == s.triggers[..|r.triggers|][i];
      assert IsNonTransactional(s, s.triggers[i]);
    }
    var a, b := Some(Analyze(op, softDelete, r)), Some(Analyze(op, softDelete, s));
    Risk.TierIsMonotone(f.(reversibility := a), f.(reversibility := b));
  }
}
