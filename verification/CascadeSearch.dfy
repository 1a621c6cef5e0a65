/** _trace and trace_cascades as written: recursion over a shared level list and two shared flags. */
module CascadeSearch {
  import opened CascadeTracer

  function LevelsOf(q: Query, bs: seq<Branch>): seq<CascadeLevel>
    requires forall e | e in bs :: InRange(q, e) && e != []
  {
    seq(|bs|, i requires 0 <= i < |bs| => LevelOf(q, bs[i]))
  }

  predicate OnBranch(q: Query, b: Branch, i: nat)
    requires InRange(q, b) && i < |q.schema.children(End(q, b))|
  {
    q.schema.children(End(q, b))[i].childTable in Tables(q, b)
  }

  /** The search below `b` raises has_circular_reference. */
  predicate Circular(q: Query, b: Branch)
    requires InRange(q, b)
    decreases q.maxDepth - |b|, 1, 0
  {
    |b| < q.maxDepth && CircularIn(q, b, |q.schema.children(End(q, b))|)
  }

  predicate CircularIn(q: Query, b: Branch, n: nat)
    requires InRange(q, b) && n <= |q.schema.children(End(q, b))| && |b| < q.maxDepth
    decreases q.maxDepth - |b|, 0, n
  {
    n > 0 && (CircularIn(q, b, n - 1) || OnBranch(q, b, n - 1) || (ChildBranch(q, b, n - 1); Circular(q, b + [n - 1])))
  }

  /** The search below `b` raises max_depth_reached. */
  predicate Limited(q: Query, b: Branch)
    requires InRange(q, b)
    decreases q.maxDepth - |b|, 1, 0
  {
    |b| >= q.maxDepth || LimitedIn(q, b, |q.schema.children(End(q, b))|)
  }

  predicate LimitedIn(q: Query, b: Branch, n: nat)
    requires InRange(q, b) && n <= |q.schema.children(End(q, b))| && |b| < q.maxDepth
    decreases q.maxDepth - |b|, 0, n
  {
    n > 0 &&
    (|| LimitedIn(q, b, n - 1)
     || (!OnBranch(q, b, n - 1) && (ChildBranch(q, b, n - 1); Limited(q, b + [n - 1]))))
  }

  class Tracer {
    var levels: seq<CascadeLevel>
    var hasCircularReference: bool
    var maxDepthReached: bool

    constructor ()
      ensures levels == [] && !hasCircularReference && !maxDepthReached
    {
      levels, hasCircularReference, maxDepthReached := [], false, false;
    }

    /** `b` is the branch the recursion stands on; it exists for the specification only. */
    method Trace(q: Query, table: Table, parentRows: nat, parentConfidence: nat, depth: nat, path: set<Table>,
                 ghost b: Branch)
      requires InRange(q, b) && table == End(q, b) && path == Tables(q, b) && depth == |b| + 1
      requires parentRows == Rows(q, b) && parentConfidence == Confidence(q, b)
      modifies this
      ensures levels == old(levels) + LevelsOf(q, Preorder(q, b))
      ensures hasCircularReference == (old(hasCircularReference) || Circular(q, b))
      ensures maxDepthReached == (old(maxDepthReached) || Limited(q, b))
      decreases q.maxDepth - depth, 1
    {
      if depth > q.maxDepth {
        maxDepthReached := true;
        return;
      }
      var children := q.schema.children(table);
      for i := 0 to |children|
        invariant levels == old(levels) + LevelsOf(q, Explored(q, b, i))
        invariant hasCircularReference == (old(hasCircularReference) || CircularIn(q, b, i))
        invariant maxDepthReached == (old(maxDepthReached) || LimitedIn(q, b, i))
      {
        Visit(q, table, parentRows, parentConfidence, depth, path, children[i], b, i);
        ExploredGrows(q, b, i, old(levels));
      }
    }

    /** The body of the loop over the children. */
    method Visit(q: Query, table: Table, parentRows: nat, parentConfidence: nat, depth: nat, path: set<Table>,
                 child: ForeignKey, ghost b: Branch, ghost i: nat)
      requires InRange(q, b) && table == End(q, b) && path == Tables(q, b) && depth == |b| + 1 <= q.maxDepth
      requires parentRows == Rows(q, b) && parentConfidence == Confidence(q, b)
      requires i < |q.schema.children(table)| && child == q.schema.children(table)[i]
      modifies this
      ensures levels == old(levels) + LevelsOf(q, Subtree(q, b, i))
      ensures InRange(q, b + [i])
      ensures hasCircularReference == (old(hasCircularReference) || OnBranch(q, b, i) || Circular(q, b + [i]))
      ensures maxDepthReached == (old(maxDepthReached) || (!OnBranch(q, b, i) && Limited(q, b + [i])))
      decreases q.maxDepth - depth, 0
    {
      ChildBranch(q, b, i);
      if child.childTable in path {
        hasCircularReference := true;
        return;
      }
      var rows := ChildRows(parentRows, q.schema.reltuples(table), q.schema.reltuples(child.childTable));
      var confidence := ChildConfidence(parentConfidence);
      levels := levels + [CascadeLevel(child.childTable, child.childColumn, table, child.parentColumn, child.action,
                                       rows, confidence, depth)];
      Trace(q, child.childTable, rows, confidence, depth + 1, path + {child.childTable}, b + [i]);
      LevelsConcat(q, [b + [i]], Preorder(q, b + [i]));
    }
  }

  lemma LevelsConcat(q: Query, s: seq<Branch>, t: seq<Branch>)
    requires forall e | e in s + t :: InRange(q, e) && e != []
    ensures forall e | e in s || e in t :: InRange(q, e) && e != []
    ensures LevelsOf(q, s + t) == LevelsOf(q, s) + LevelsOf(q, t)
  {
    assert forall e | e in s || e in t :: e in s + t;
  }

  /** The next child's levels go behind what is there. */
  lemma ExploredGrows(q: Query, b: Branch, i: nat, start: seq<CascadeLevel>)
    requires InRange(q, b) && i < |q.schema.children(End(q, b))| && |b| < q.maxDepth
    ensures start + LevelsOf(q, Explored(q, b, i)) + LevelsOf(q, Subtree(q, b, i))
            == start + LevelsOf(q, Explored(q, b, i + 1))
  {
    LevelsConcat(q, Explored(q, b, i), Subtree(q, b, i));
    assert Explored(q, b, i + 1) == Explored(q, b, i) + Subtree(q, b, i);
  }

  datatype CascadeGraph = CascadeGraph(
    rootTable: Table,
    levels: seq<CascadeLevel>,
    totalEstimatedRows: nat,
    hasCircularReference: bool,
    maxDepthReached: bool)

  function TotalRows(levels: seq<CascadeLevel>): nat {
    if levels == [] then 0 else TotalRows(levels[..|levels| - 1]) + levels[|levels| - 1].estimatedRows
  }

  /** trace_cascades with the root estimate at hand. */
  method TraceCascades(q: Query) returns (g: CascadeGraph)
    ensures g.rootTable == q.root
    ensures g.levels == LevelsOf(q, Preorder(q, []))
    ensures g.totalEstimatedRows == TotalRows(g.levels)
    ensures g.hasCircularReference == Circular(q, [])
    ensures g.maxDepthReached == Limited(q, [])
  {
    hide Circular, Limited, Preorder, LevelsOf, TotalRows;
    var tracer := new Tracer();
    tracer.Trace(q, q.root, q.rows, q.confidence, 1, {q.root}, []);
    var total := SumEstimates(tracer.levels);
    g := CascadeGraph(q.root, tracer.levels, total, tracer.hasCircularReference, tracer.maxDepthReached);
  }

  method SumEstimates(levels: seq<CascadeLevel>) returns (total: nat)
    ensures total == TotalRows(levels)
  {
    total := 0;
    for i := 0 to |levels|
      invariant total == TotalRows(levels[..i])
    {
      assert levels[..i + 1][..i] == levels[..i];
      total := total + levels[i].estimatedRows;
    }
    assert levels[..|levels|] == levels;
  }
}
