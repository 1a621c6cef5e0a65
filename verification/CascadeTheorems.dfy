/** What the cascade graph means: reachability, cycles, and how the row estimates telescope. */
module CascadeTheorems {
  import opened CascadeTracer
  import opened CascadeSearch

  // ----- the graph, without the search -----

  predicate Cascades(s: Schema, from: Table, to: Table) {
    exists i | 0 <= i < |s.children(from)| :: s.children(from)[i].childTable == to
  }

  predicate IsWalk(s: Schema, w: seq<Table>) {
    w != [] && forall k | 0 <= k < |w| - 1 :: Cascades(s, w[k], w[k + 1])
  }

  ghost predicate Reaches(s: Schema, root: Table, t: Table) {
    exists w :: IsWalk(s, w) && w[0] == root && w[|w| - 1] == t
  }

  predicate Repeats(w: seq<Table>) {
    exists i, j | 0 <= i < j < |w| :: w[i] == w[j]
  }

  /** Some walk from the root comes back to a table it has left. */
  ghost predicate HasReachableCycle(s: Schema, root: Table) {
    exists w :: IsWalk(s, w) && w[0] == root && Repeats(w)
  }

  // ----- branches as walks -----

  function WalkOf(q: Query, b: Branch): (w: seq<Table>)
    requires InRange(q, b)
    ensures |w| == |b| + 1
  {
    if b == [] then [q.root] else WalkOf(q, b[..|b| - 1]) + [End(q, b)]
  }

  lemma {:induction false} WalkOfIsWalk(q: Query, b: Branch)
    requires InRange(q, b)
    ensures var w := WalkOf(q, b);
      && IsWalk(q.schema, w) && w[0] == q.root && w[|b|] == End(q, b)
      && (forall t :: t in w <==> t in Tables(q, b))
      && (Simple(q, b) ==> !Repeats(w))
  {
    if b != [] {
      var up := b[..|b| - 1];
      WalkOfIsWalk(q, up);
      var w, v := WalkOf(q, b), WalkOf(q, up);
      assert q.schema.children(End(q, up))[b[|b| - 1]].childTable == End(q, b);
      assert Cascades(q.schema, End(q, up), End(q, b));
      assert forall k | 0 <= k < |v| :: w[k] == v[k];
    }
  }

  /** A branch can be extended along any edge. */
  lemma ExtendAlong(q: Query, b: Branch, t: Table) returns (c: Branch)
    requires InRange(q, b) && Cascades(q.schema, End(q, b), t)
    ensures InRange(q, c) && |c| == |b| + 1 && c[..|b|] == b && End(q, c) == t
    ensures Simple(q, c) <==> Simple(q, b) && t !in Tables(q, b)
    ensures WalkOf(q, c) == WalkOf(q, b) + [t]
  {
    var i :| 0 <= i < |q.schema.children(End(q, b))| && q.schema.children(End(q, b))[i].childTable == t;
    ChildBranch(q, b, i);
    c := b + [i];
  }

  // ----- the flags -----

  /** A branch through `b` that the search follows, from which an edge leads back onto it. */
  predicate TurnsBack(q: Query, b: Branch, e: Branch) {
    Simple(q, e) && |b| <= |e| < q.maxDepth && e[..|b|] == b && Revisits(q, e)
  }

  lemma {:induction false} CircularInExact(q: Query, b: Branch, n: nat)
    requires Simple(q, b) && n <= |q.schema.children(End(q, b))| && |b| < q.maxDepth
    ensures CircularIn(q, b, n) <==>
              || (exists i | 0 <= i < n :: OnBranch(q, b, i))
              || (exists e :: TurnsBack(q, b, e) && |b| < |e| && e[|b|] < n)
    decreases q.maxDepth - |b|, 0, n
  {
    if n > 0 {
      var i, c := n - 1, b + [n - 1];
      CircularInExact(q, b, i);
      ChildBranch(q, b, i);
      if !OnBranch(q, b, i) {
        CircularExact(q, c);
        forall e | |b| < |e|
          ensures TurnsBack(q, c, e) <==> TurnsBack(q, b, e) && e[|b|] == i
        {
          SamePrefix(b, i, e);
        }
      } else {
        assert CircularIn(q, b, n);
      }
    }
  }

  lemma SamePrefix(b: Branch, i: nat, e: Branch)
    requires |b| < |e|
    ensures e[..|b| + 1] == b + [i] <==> e[..|b|] == b && e[|b|] == i
  {
    assert e[..|b| + 1] == e[..|b|] + [e[|b|]];
  }

  lemma {:induction false} CircularExact(q: Query, b: Branch)
    requires Simple(q, b)
    ensures Circular(q, b) <==> exists e :: TurnsBack(q, b, e)
    decreases q.maxDepth - |b|, 1, 0
  {
    if |b| < q.maxDepth {
      var n := |q.schema.children(End(q, b))|;
      CircularInExact(q, b, n);
      assert b[..|b|] == b;
      if exists i | 0 <= i < n :: OnBranch(q, b, i) {
        assert Revisits(q, b);
        assert TurnsBack(q, b, b);
      }
      forall e | TurnsBack(q, b, e)
        ensures Circular(q, b)
      {
        if |e| == |b| {
          assert e[..|e|] == e;
          var i :| 0 <= i < n && q.schema.children(End(q, b))[i].childTable in Tables(q, b);
          assert OnBranch(q, b, i);
        } else {
          PrefixIsSimple(q, e, |b| + 1);
          assert e[..|b| + 1][..|b|] == b;
        }
      }
    }
  }

  lemma {:induction false} LimitedInExact(q: Query, b: Branch, n: nat)
    requires Simple(q, b) && n <= |q.schema.children(End(q, b))| && |b| < q.maxDepth
    ensures LimitedIn(q, b, n) <==> exists e :: Below(q, b, e, n) && |e| == q.maxDepth
    decreases q.maxDepth - |b|, 0, n
  {
    if n > 0 {
      var i, c := n - 1, b + [n - 1];
      LimitedInExact(q, b, i);
      ChildBranch(q, b, i);
      forall e | Below(q, b, e, n) && e[|b|] == i
        ensures Simple(q, c) && e[..|c|] == c
      {
        SamePrefix(b, i, e);
        PrefixIsSimple(q, e, |c|);
      }
      if !OnBranch(q, b, i) {
        LimitedExact(q, c);
        forall e | Simple(q, e) && |c| <= |e| == q.maxDepth && e[..|c|] == c
          ensures Below(q, b, e, n)
        {
          SamePrefix(b, i, e);
        }
      }
    }
  }

  lemma {:induction false} LimitedExact(q: Query, b: Branch)
    requires Simple(q, b) && |b| <= q.maxDepth
    ensures Limited(q, b) <==> exists e :: Simple(q, e) && |b| <= |e| == q.maxDepth && e[..|b|] == b
    decreases q.maxDepth - |b|, 1, 0
  {
    assert b[..|b|] == b;
    if |b| < q.maxDepth {
      var n := |q.schema.children(End(q, b))|;
      LimitedInExact(q, b, n);
      forall e | Simple(q, e) && |b| < |e| == q.maxDepth && e[..|b|] == b
        ensures Below(q, b, e, n)
      {
        PrefixIsSimple(q, e, |b| + 1);
        assert e[..|b| + 1][..|b|] == b;
      }
    }
  }

  // ----- completeness -----

  lemma {:induction false} PrefixTo(q: Query, b: Branch, t: Table) returns (p: Branch)
    requires Simple(q, b) && t in Tables(q, b)
    ensures Simple(q, p) && End(q, p) == t
  {
    if b == [] || End(q, b) == t {
      p := b;
    } else {
      p := PrefixTo(q, b[..|b| - 1], t);
    }
  }

  /** Every table on a walk from the root ends some branch that never revisits a table. */
  lemma {:induction false} WalkEndsSimpleBranch(q: Query, w: seq<Table>, k: nat) returns (e: Branch)
    requires IsWalk(q.schema, w) && w[0] == q.root && k < |w|
    ensures Simple(q, e) && End(q, e) == w[k]
  {
    if k == 0 {
      e := [];
    } else {
      e := WalkEndsSimpleBranch(q, w, k - 1);
      assert Cascades(q.schema, w[k - 1], w[k]);
      if w[k] in Tables(q, e) {
        e := PrefixTo(q, e, w[k]);
      } else {
        e := ExtendAlong(q, e, w[k]);
      }
    }
  }

  /** Below the limit, every branch without a revisit is shorter than the limit. */
  lemma BranchesStayBelowLimit(q: Query, e: Branch)
    requires Simple(q, e)
    ensures |e| < q.maxDepth || Limited(q, [])
  {
    if 0 <= q.maxDepth <= |e| {
      LimitedExact(q, []);
      PrefixIsSimple(q, e, q.maxDepth);
      assert e[..q.maxDepth][..0] == [];
    }
  }

  lemma RootOnlyOnEmptyBranch(q: Query, e: Branch)
    requires Simple(q, e) && e != []
    ensures End(q, e) != q.root
  {
    var up := e[..|e| - 1];
    WalkOfIsWalk(q, up);
    assert WalkOf(q, up)[0] in Tables(q, up);
  }

  /** When max_depth_reached stays false, the tables listed are exactly those other than the root that
      CASCADE edges reach from it; listed tables are always reachable. */
  lemma ListedTablesAreTheReachableOnes(q: Query, t: Table)
    ensures (exists e :: e in Preorder(q, []) && End(q, e) == t) ==> t != q.root && Reaches(q.schema, q.root, t)
    ensures !Limited(q, []) && t != q.root && Reaches(q.schema, q.root, t)
            ==> exists e :: e in Preorder(q, []) && End(q, e) == t
  {
    forall e | e in Preorder(q, []) && End(q, e) == t
      ensures t != q.root && Reaches(q.schema, q.root, t)
    {
      SearchIsExact(q, e);
      WalkOfIsWalk(q, e);
      RootOnlyOnEmptyBranch(q, e);
    }
    if !Limited(q, []) && t != q.root && Reaches(q.schema, q.root, t) {
      var w :| IsWalk(q.schema, w) && w[0] == q.root && w[|w| - 1] == t;
      var e := WalkEndsSimpleBranch(q, w, |w| - 1);
      BranchesStayBelowLimit(q, e);
      SearchIsExact(q, e);
    }
  }

  /** For a positive limit, max_depth_reached holds exactly when some level lies at that depth. */
  lemma LimitIsReachedExactlyAtDepth(q: Query)
    requires q.maxDepth >= 1
    ensures Limited(q, []) <==> exists e :: e in Preorder(q, []) && LevelOf(q, e).depth == q.maxDepth
  {
    LimitedExact(q, []);
    forall e: Branch
      ensures e in Preorder(q, []) <==> Simple(q, e) && 1 <= |e| <= q.maxDepth
      ensures e[..0] == []
    {
      SearchIsExact(q, e);
    }
  }

  // ----- cycles -----

  /** has_circular_reference is sound: there is a CASCADE cycle reachable from the root. */
  lemma CircularMeansCycle(q: Query)
    requires Circular(q, [])
    ensures HasReachableCycle(q.schema, q.root)
  {
    CircularExact(q, []);
    var e :| TurnsBack(q, [], e);
    var i :| 0 <= i < |q.schema.children(End(q, e))| && q.schema.children(End(q, e))[i].childTable in Tables(q, e);
    var t := q.schema.children(End(q, e))[i].childTable;
    WalkOfIsWalk(q, e);
    var v := WalkOf(q, e);
    var w := v + [t];
    assert Cascades(q.schema, v[|v| - 1], t);
    assert IsWalk(q.schema, w);
    var k :| 0 <= k < |v| && v[k] == t;
    assert w[k] == w[|w| - 1];
  }

  lemma {:induction false} EveryWalkIsSimple(q: Query, w: seq<Table>) returns (e: Branch)
    requires !Circular(q, []) && !Limited(q, [])
    requires IsWalk(q.schema, w) && w[0] == q.root
    ensures Simple(q, e) && WalkOf(q, e) == w
  {
    var n := |w| - 1;
    if n == 0 {
      e := [];
    } else {
      e := EveryWalkIsSimple(q, w[..n]);
      WalkOfIsWalk(q, e);
      BranchesStayBelowLimit(q, e);
      CircularExact(q, []);
      assert e[..0] == [];
      assert !TurnsBack(q, [], e);
      assert Cascades(q.schema, w[n - 1], w[n]);
      var i :| 0 <= i < |q.schema.children(End(q, e))| && q.schema.children(End(q, e))[i].childTable == w[n];
      assert w[n] !in Tables(q, e);
      e := ExtendAlong(q, e, w[n]);
      assert w == w[..n] + [w[n]];
    }
  }

  /** Cycle detection is complete below the limit: with both flags down, no walk from the root ever repeats a table. */
  lemma NoFlagMeansAcyclic(q: Query)
    requires !Circular(q, []) && !Limited(q, [])
    ensures !HasReachableCycle(q.schema, q.root)
  {
    forall w | IsWalk(q.schema, w) && w[0] == q.root
      ensures !Repeats(w)
    {
      var e := EveryWalkIsSimple(q, w);
      WalkOfIsWalk(q, e);
    }
  }

  // ----- estimates -----

  lemma FloorBelow(x: nat, d: nat)
    requires d > 0
    ensures x / d * d <= x
  {
  }

  lemma MulStrict(a: nat, b: nat, c: nat)
    requires a < b && c > 0
    ensures a * c < b * c
  {
  }

  lemma CancelFactor(a: nat, b: nat, c: nat)
    requires c > 0 && a * c <= b * c
    ensures a <= b
  {
    if b < a {
      MulStrict(b, a, c);
    }
  }

  lemma LessFactor(a: nat, b: nat, c: nat)
    requires a * c < b * c
    ensures a < b
  {
    if b <= a {
      MulMono(b, a, c);
    }
  }

  /** One step of the bound: floor(rows * child / parent) keeps it. */
  lemma BoundStep(rows: nat, up: nat, root: nat, parent: nat, child: nat)
    requires up * root <= rows * parent
    ensures ChildRows(up, parent, child) * root <= rows * child
  {
    if parent > 0 {
      var est := ChildRows(up, parent, child);
      FloorBelow(up * child, parent);
      calc {
        est * root * parent;
        est * parent * root;
        <= { assert est * parent <= up * child; MulMono(est * parent, up * child, root); }
        up * child * root;
        (up * root) * child;
        <= { MulMono(up * root, rows * parent, child); }
        rows * parent * child;
        rows * child * parent;
      }
      CancelFactor(est * root, rows * child, parent);
    }
  }

  lemma MulMono(a: nat, b: nat, c: nat)
    requires a <= b
    ensures a * c <= b * c
  {
  }

  /** An estimate never exceeds its share: estimate * reltuples(root) <= root rows * reltuples(table). */
  lemma {:induction false} EstimateIsBounded(q: Query, b: Branch)
    requires InRange(q, b)
    ensures Rows(q, b) * q.schema.reltuples(q.root) <= q.rows * q.schema.reltuples(End(q, b))
  {
    if b != [] {
      var up := b[..|b| - 1];
      EstimateIsBounded(q, up);
      BoundStep(q.rows, Rows(q, up), q.schema.reltuples(q.root),
                q.schema.reltuples(End(q, up)), q.schema.reltuples(End(q, b)));
    }
  }

  /** All ancestors of the last table have rows. */
  predicate AncestorsFilled(q: Query, b: Branch)
    requires InRange(q, b)
  {
    b == [] || (AncestorsFilled(q, b[..|b| - 1]) && q.schema.reltuples(End(q, b[..|b| - 1])) > 0)
  }

  /** No estimate exceeds the table when the root estimate does not exceed the root; and when the root
      estimate is the whole root, every table below filled ancestors is estimated whole. */
  lemma {:induction false} EstimateStaysWithinTable(q: Query, b: Branch)
    requires InRange(q, b) && q.rows <= q.schema.reltuples(q.root)
    ensures Rows(q, b) <= q.schema.reltuples(End(q, b))
    ensures q.rows == q.schema.reltuples(q.root) && AncestorsFilled(q, b)
            ==> Rows(q, b) == q.schema.reltuples(End(q, b))
  {
    if b != [] {
      var up := b[..|b| - 1];
      EstimateStaysWithinTable(q, up);
      var est, rows := Rows(q, b), Rows(q, up);
      var parent, child := q.schema.reltuples(End(q, up)), q.schema.reltuples(End(q, b));
      if parent > 0 {
        FloorBelow(rows * child, parent);
        MulMono(rows, parent, child);
        assert est * parent <= child * parent;
        CancelFactor(est, child, parent);
        if rows == parent {
          WholeTable(parent, child);
        }
      }
    }
  }

  lemma WholeTable(parent: nat, child: nat)
    requires parent > 0
    ensures ChildRows(parent, parent, child) == child
  {
    var k := parent * child / parent;
    FloorBelow(parent * child, parent);
    CancelFactor(k, child, parent);
    assert parent * child < (k + 1) * parent by {
      assert parent * child == k * parent + parent * child % parent;
    }
    LessFactor(child, k + 1, parent);
  }

  // ----- estimates from below -----

  /** A level's estimate is its share of the parent's estimate, rounded down: neither more nor a whole row less. */
  lemma EstimateIsTheShareRoundedDown(q: Query, b: Branch)
    requires InRange(q, b) && b != []
    ensures var up := b[..|b| - 1];
      var parent, child := q.schema.reltuples(End(q, up)), q.schema.reltuples(End(q, b));
      if parent > 0 then Rows(q, b) * parent <= Rows(q, up) * child < (Rows(q, b) + 1) * parent
      else Rows(q, b) == 0
  {
    var up := b[..|b| - 1];
    var parent, child := q.schema.reltuples(End(q, up)), q.schema.reltuples(End(q, b));
    if parent > 0 {
      QuotientBounds(Rows(q, up) * child, parent);
    }
  }

  lemma QuotientBounds(x: nat, d: nat)
    requires d > 0
    ensures x / d * d <= x < (x / d + 1) * d
  {
    assert x == x / d * d + x % d;
  }

  /** All tables on a branch have rows. */
  predicate Filled(q: Query, b: Branch)
    requires InRange(q, b)
  {
    AncestorsFilled(q, b) && q.schema.reltuples(End(q, b)) > 0
  }

  /** What part of a table the estimate covers. */
  function Share(q: Query, b: Branch): real
    requires InRange(q, b) && Filled(q, b)
  {
    Rows(q, b) as real / q.schema.reltuples(End(q, b)) as real
  }

  /** What rounding down can cost on the way: at most one row of each table below the root. */
  function Rounding(q: Query, b: Branch): real
    requires InRange(q, b) && Filled(q, b)
  {
    if b == [] then 0.0
    else Rounding(q, b[..|b| - 1]) + 1.0 / q.schema.reltuples(End(q, b)) as real
  }

  lemma ShareStep(rows: nat, parent: nat, est: nat, child: nat)
    requires parent > 0 && child > 0 && est * parent <= rows * child < (est + 1) * parent
    ensures est as real / child as real <= rows as real / parent as real
    ensures rows as real / parent as real < est as real / child as real + 1.0 / child as real
  {
    QuotientsOrdered(est, child, rows, parent);
    QuotientsOrdered(rows, parent, est + 1, child);
    SplitQuotient(est as real, child as real);
  }

  lemma SplitQuotient(x: real, d: real)
    requires d > 0.0
    ensures (x + 1.0) / d == x / d + 1.0 / d
  {
  }

  lemma CastProduct(a: nat, b: nat)
    ensures (a * b) as real == a as real * b as real
  {
  }

  lemma QuotientsOrdered(a: nat, b: nat, c: nat, d: nat)
    requires b > 0 && d > 0
    ensures a * d <= c * b ==> a as real / b as real <= c as real / d as real
    ensures a * d < c * b ==> a as real / b as real < c as real / d as real
  {
    CastProduct(a, d);
    CastProduct(c, b);
    CompareQuotients(a as real, b as real, c as real, d as real);
  }

  lemma CompareQuotients(a: real, b: real, c: real, d: real)
    requires b > 0.0 && d > 0.0
    ensures a * d <= c * b ==> a / b <= c / d
    ensures a * d < c * b ==> a / b < c / d
  {
    var x, y := a / b, c / d;
    assert a == x * b && c == y * d;
    if y < x {
      ScaledLess(y, x, b * d);
      assert (x * b) * d == x * (b * d) && (y * d) * b == y * (b * d);
    }
  }

  lemma ScaledLess(x: real, y: real, d: real)
    requires x < y && d > 0.0
    ensures x * d < y * d
  {
  }

  /** The estimates telescope: below filled tables every level covers the same part of its table as the root estimate
      covers of the root, less what rounding down costs. */
  lemma {:induction false} EstimateKeepsTheRootsShare(q: Query, b: Branch)
    requires InRange(q, b) && Filled(q, b)
    ensures Filled(q, [])
    ensures Share(q, []) - Rounding(q, b) <= Share(q, b) <= Share(q, [])
  {
    if b != [] {
      var up := b[..|b| - 1];
      EstimateKeepsTheRootsShare(q, up);
      EstimateIsTheShareRoundedDown(q, b);
      ShareStep(Rows(q, up), q.schema.reltuples(End(q, up)), Rows(q, b), q.schema.reltuples(End(q, b)));
    }
  }

  /** The same search with another root estimate. */
  lemma {:induction false} SameBranches(q: Query, r: nat, b: Branch)
    requires InRange(q, b)
    ensures InRange(q.(rows := r), b) && End(q.(rows := r), b) == End(q, b)
  {
    if b != [] {
      SameBranches(q, r, b[..|b| - 1]);
    }
  }

  /** A larger root estimate never gives a smaller estimate anywhere. */
  lemma {:induction false} EstimateIsMonotone(q: Query, r: nat, b: Branch)
    requires InRange(q, b) && q.rows <= r
    ensures InRange(q.(rows := r), b) && Rows(q, b) <= Rows(q.(rows := r), b)
  {
    SameBranches(q, r, b);
    if b != [] {
      var up := b[..|b| - 1];
      SameBranches(q, r, up);
      EstimateIsMonotone(q, r, up);
      var parent, child := q.schema.reltuples(End(q, up)), q.schema.reltuples(End(q, b));
      MulMono(Rows(q, up), Rows(q.(rows := r), up), child);
      if parent > 0 {
        QuotientMono(Rows(q, up) * child, Rows(q.(rows := r), up) * child, parent);
      }
    }
  }

  lemma QuotientMono(x: nat, y: nat, d: nat)
    requires d > 0 && x <= y
    ensures x / d <= y / d
  {
    QuotientBounds(x, d);
    QuotientBounds(y, d);
    if y / d < x / d {
      MulMono(y / d + 1, x / d, d);
    }
  }

  /** A level's confidence is 0.8 of its parent's, rounded to four places. */
  lemma ConfidenceIsRounded(q: Query, b: Branch)
    requires b != []
    ensures var c, up := Confidence(q, b), Confidence(q, b[..|b| - 1]);
      -5 < 8 * up - 10 * c < 5
  {
    QuotientBounds(8 * Confidence(q, b[..|b| - 1]) + 5, 10);
  }

  /** A level's confidence never rises with depth, and falls strictly as long as it is at least 0.0003. */
  lemma {:induction false} ConfidenceDegrades(q: Query, b: Branch, k: nat)
    requires k < |b|
    ensures Confidence(q, b) <= Confidence(q, b[..k])
    ensures Confidence(q, b) < Confidence(q, b[..k]) <==> Confidence(q, b[..k]) >= 3
  {
    var up := b[..|b| - 1];
    if k < |up| {
      ConfidenceDegrades(q, up, k);
      assert up[..k] == b[..k];
    } else {
      assert up == b[..k];
    }
  }
}
