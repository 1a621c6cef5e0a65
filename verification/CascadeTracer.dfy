/** The foreign-key cascade tracer: a depth-bounded depth-first search with a visited set per branch. */
module CascadeTracer {

  type Table = string

  datatype ForeignKey = ForeignKey(childTable: Table, childColumn: string, parentColumn: string, action: string)

  /** What the catalogue answers: the CASCADE children of a table, in order, and its row statistics. */
  datatype Schema = Schema(children: Table -> seq<ForeignKey>, reltuples: Table -> nat)

  /** Confidences are in ten-thousandths. */
  datatype CascadeLevel = CascadeLevel(
    tableName: Table,
    columnName: string,
    parentTable: Table,
    parentColumn: string,
    action: string,
    estimatedRows: nat,
    confidence: nat,
    depth: nat)

  datatype Query = Query(schema: Schema, root: Table, rows: nat, confidence: nat, maxDepth: int)

  /** A branch from the root: which child to take at each step. */
  type Branch = seq<nat>

  // ----- branches -----

  /** The indices of a branch exist. */
  predicate InRange(q: Query, b: Branch)
    decreases |b|, 0
  {
    b == [] ||
    var up := b[..|b| - 1];
    InRange(q, up) && b[|b| - 1] < |q.schema.children(End(q, up))|
  }

  /** The table a branch ends in. */
  function End(q: Query, b: Branch): Table
    requires InRange(q, b)
    decreases |b|, 2
  {
    if b == [] then q.root else LastKey(q, b).childTable
  }

  /** The foreign key a branch ends with. */
  function LastKey(q: Query, b: Branch): ForeignKey
    requires InRange(q, b) && b != []
    decreases |b|, 1
  {
    q.schema.children(End(q, b[..|b| - 1]))[b[|b| - 1]]
  }

  /** The tables on a branch, the root among them. */
  function Tables(q: Query, b: Branch): set<Table>
    requires InRange(q, b)
  {
    if b == [] then {q.root} else Tables(q, b[..|b| - 1]) + {End(q, b)}
  }

  /** A branch that never revisits a table. */
  predicate Simple(q: Query, b: Branch)
    ensures Simple(q, b) ==> InRange(q, b)
  {
    b == [] ||
    var up := b[..|b| - 1];
    Simple(q, up) && InRange(q, b) && End(q, b) !in Tables(q, up)
  }

  // ----- estimates -----

  function ChildRows(parentRows: nat, parentReltuples: nat, childReltuples: nat): nat {
    if parentReltuples > 0 then parentRows * childReltuples / parentReltuples else 0
  }

  /** round(c * 0.8, 4); 8c/10 is never halfway between two ten-thousandths. */
  function ChildConfidence(c: nat): nat {
    (8 * c + 5) / 10
  }

  function Rows(q: Query, b: Branch): nat
    requires InRange(q, b)
  {
    if b == [] then q.rows
    else
      var up := b[..|b| - 1];
      ChildRows(Rows(q, up), q.schema.reltuples(End(q, up)), q.schema.reltuples(End(q, b)))
  }

  function Confidence(q: Query, b: Branch): nat {
    if b == [] then q.confidence else ChildConfidence(Confidence(q, b[..|b| - 1]))
  }

  function LevelOf(q: Query, b: Branch): CascadeLevel
    requires InRange(q, b) && b != []
  {
    var key := LastKey(q, b);
    CascadeLevel(key.childTable, key.childColumn, End(q, b[..|b| - 1]), key.parentColumn, key.action,
                 Rows(q, b), Confidence(q, b), |b|)
  }

  // ----- what the search lists -----

  /** Below `b`: the branches recorded by _trace, in the order it records them. */
  function Preorder(q: Query, b: Branch): (bs: seq<Branch>)
    requires InRange(q, b)
    ensures forall e | e in bs :: InRange(q, e) && e != []
    decreases q.maxDepth - |b|, 1, 0
  {
    if |b| >= q.maxDepth then [] else Explored(q, b, |q.schema.children(End(q, b))|)
  }

  /** The part of it that comes from the first `n` children. */
  function Explored(q: Query, b: Branch, n: nat): (bs: seq<Branch>)
    requires InRange(q, b) && n <= |q.schema.children(End(q, b))| && |b| < q.maxDepth
    ensures forall e | e in bs :: InRange(q, e) && e != []
    decreases q.maxDepth - |b|, 0, n
  {
    if n == 0 then []
    else
      Explored(q, b, n - 1) + Subtree(q, b, n - 1)
  }

  /** What the child `i` contributes: nothing when it is on the branch already. */
  function Subtree(q: Query, b: Branch, i: nat): (bs: seq<Branch>)
    requires InRange(q, b) && i < |q.schema.children(End(q, b))| && |b| < q.maxDepth
    ensures forall e | e in bs :: InRange(q, e) && e != []
    decreases q.maxDepth - |b|, 0, i
  {
    if q.schema.children(End(q, b))[i].childTable in Tables(q, b) then []
    else
      assert (b + [i])[..|b|] == b;
      [b + [i]] + Preorder(q, b + [i])
  }

  predicate Revisits(q: Query, b: Branch)
    requires InRange(q, b)
  {
    exists i | 0 <= i < |q.schema.children(End(q, b))| :: q.schema.children(End(q, b))[i].childTable in Tables(q, b)
  }

  // ----- order and membership -----

  /** Depth-first order: `a` is a proper prefix of `c`, or takes an earlier child where they part. */
  predicate PartsAt(a: Branch, c: Branch, k: nat) {
    k <= |a| && k < |c| && a[..k] == c[..k] && (k == |a| || a[k] < c[k])
  }

  predicate Before(a: Branch, c: Branch) {
    exists k: nat :: k <= |a| && PartsAt(a, c, k)
  }

  predicate Ordered(bs: seq<Branch>) {
    forall i, j | 0 <= i < j < |bs| :: Before(bs[i], bs[j])
  }

  lemma {:induction false} PrefixIsSimple(q: Query, b: Branch, k: nat)
    requires Simple(q, b) && k <= |b|
    ensures Simple(q, b[..k])
  {
    if k < |b| {
      PrefixIsSimple(q, b[..|b| - 1], k);
      assert b[..|b| - 1][..k] == b[..k];
    } else {
      assert b[..k] == b;
    }
  }

  /** One more step. */
  lemma ChildBranch(q: Query, b: Branch, i: nat)
    requires InRange(q, b) && i < |q.schema.children(End(q, b))|
    ensures var c, t := b + [i], q.schema.children(End(q, b))[i].childTable;
      && c[..|c| - 1] == b
      && InRange(q, c) && End(q, c) == t && LastKey(q, c) == q.schema.children(End(q, b))[i]
      && Tables(q, c) == Tables(q, b) + {t}
      && (Simple(q, c) <==> Simple(q, b) && t !in Tables(q, b))
  {
    var c := b + [i];
    assert c[..|c| - 1] == b;
  }

  /** The branches below `b` whose step after `b` is less than `n`. */
  predicate Below(q: Query, b: Branch, e: Branch, n: nat) {
    Simple(q, e) && |b| < |e| <= q.maxDepth && e[..|b|] == b && e[|b|] < n
  }

  lemma {:induction false} SubtreeMembers(q: Query, b: Branch, i: nat, e: Branch)
    requires Simple(q, b) && i < |q.schema.children(End(q, b))| && |b| < q.maxDepth
    ensures e in Subtree(q, b, i) <==> Below(q, b, e, i + 1) && e[|b|] == i
    decreases q.maxDepth - |b|, 0, i
  {
    var c := b + [i];
    ChildBranch(q, b, i);
    if Below(q, b, e, i + 1) && e[|b|] == i {
      assert e[..|c|] == c;
      PrefixIsSimple(q, e, |c|);
      assert |e| == |c| ==> e == c;
    }
    if Simple(q, c) {
      assert Subtree(q, b, i) == [c] + Preorder(q, c);
      PreorderMembers(q, c, e);
      if e in Preorder(q, c) {
        assert e[..|c|] == c && c[|b|] == i;
        assert e[..|b|] == e[..|c|][..|b|];
        assert e[|b|] == e[..|c|][|b|];
      }
    }
  }

  lemma {:induction false} ExploredMembers(q: Query, b: Branch, n: nat, e: Branch)
    requires Simple(q, b) && n <= |q.schema.children(End(q, b))| && |b| < q.maxDepth
    ensures e in Explored(q, b, n) <==> Below(q, b, e, n)
    decreases q.maxDepth - |b|, 0, n
  {
    if n > 0 {
      ExploredMembers(q, b, n - 1, e);
      SubtreeMembers(q, b, n - 1, e);
    }
  }

  lemma {:induction false} PreorderMembers(q: Query, b: Branch, e: Branch)
    requires Simple(q, b)
    ensures e in Preorder(q, b) <==> Simple(q, e) && |b| < |e| <= q.maxDepth && e[..|b|] == b
    decreases q.maxDepth - |b|, 1, 0
  {
    if |b| < q.maxDepth {
      var n := |q.schema.children(End(q, b))|;
      ExploredMembers(q, b, n, e);
      if Simple(q, e) && |b| < |e| && e[..|b|] == b {
        PrefixIsSimple(q, e, |b| + 1);
        assert e[..|b| + 1][..|b|] == b;
      }
    }
  }

  lemma {:induction false} SubtreeOrdered(q: Query, b: Branch, i: nat)
    requires Simple(q, b) && i < |q.schema.children(End(q, b))| && |b| < q.maxDepth
    ensures Ordered(Subtree(q, b, i))
    decreases q.maxDepth - |b|, 0, i
  {
    var c := b + [i];
    ChildBranch(q, b, i);
    if q.schema.children(End(q, b))[i].childTable !in Tables(q, b) {
      PreorderOrdered(q, c);
      var rest := Preorder(q, c);
      forall j | 0 <= j < |rest|
        ensures Before(c, rest[j])
      {
        PreorderMembers(q, c, rest[j]);
        assert PartsAt(c, rest[j], |c|);
      }
    }
  }

  lemma {:induction false} ExploredOrdered(q: Query, b: Branch, n: nat)
    requires Simple(q, b) && n <= |q.schema.children(End(q, b))| && |b| < q.maxDepth
    ensures Ordered(Explored(q, b, n))
    decreases q.maxDepth - |b|, 0, n
  {
    if n > 0 {
      ExploredOrdered(q, b, n - 1);
      SubtreeOrdered(q, b, n - 1);
      var first, last := Explored(q, b, n - 1), Subtree(q, b, n - 1);
      forall i, j | 0 <= i < |first| && 0 <= j < |last|
        ensures Before(first[i], last[j])
      {
        ExploredMembers(q, b, n - 1, first[i]);
        SubtreeMembers(q, b, n - 1, last[j]);
        assert PartsAt(first[i], last[j], |b|);
      }
    }
  }

  lemma {:induction false} PreorderOrdered(q: Query, b: Branch)
    requires Simple(q, b)
    ensures Ordered(Preorder(q, b))
    decreases q.maxDepth - |b|, 1, 0
  {
    if |b| < q.maxDepth {
      ExploredOrdered(q, b, |q.schema.children(End(q, b))|);
    }
  }

  /** The search lists exactly the branches of length 1 to maxDepth that never revisit a table, in depth-first order. */
  lemma SearchIsExact(q: Query, e: Branch)
    ensures Ordered(Preorder(q, []))
    ensures e in Preorder(q, []) <==> Simple(q, e) && 1 <= |e| <= q.maxDepth
  {
    PreorderOrdered(q, []);
    PreorderMembers(q, [], e);
  }

  lemma PartOneWay(a: Branch, c: Branch, k: nat, m: nat)
    requires PartsAt(a, c, k)
    ensures !PartsAt(c, a, m) && a != c
  {
    if m < k {
      assert a[..k][m] == c[..k][m];
    } else if k < m <= |a| && m <= |c| {
      assert a[..m][k] == a[k] && c[..m][k] == c[k];
    }
  }

  lemma BeforeIsAsymmetric(a: Branch, c: Branch)
    requires Before(a, c)
    ensures !Before(c, a) && a != c
  {
    var k: nat :| k <= |a| && PartsAt(a, c, k);
    forall m: nat
      ensures !PartsAt(c, a, m) && a != c
    {
      PartOneWay(a, c, k, m);
    }
    assert !PartsAt(c, a, 0);
  }

  /** Order and membership determine the list: there is only one such sequence of branches. */
  lemma {:induction false} OrderedListIsUnique(s: seq<Branch>, t: seq<Branch>)
    requires Ordered(s) && Ordered(t)
    requires forall e :: e in s <==> e in t
    ensures s == t
  {
    EmptyTogether(s, t);
    if s != [] {
      assert s[0] in t && t[0] in s;
      var i :| 0 <= i < |t| && t[i] == s[0];
      var j :| 0 <= j < |s| && s[j] == t[0];
      if i > 0 && j > 0 {
        BeforeIsAsymmetric(s[0], t[0]);
      }
      forall e
        ensures e in s[1..] <==> e in t[1..]
      {
        HeadLeaves(s, e);
        HeadLeaves(t, e);
      }
      OrderedListIsUnique(s[1..], t[1..]);
      assert s == [s[0]] + s[1..] && t == [t[0]] + t[1..];
    }
  }

  lemma EmptyTogether(s: seq<Branch>, t: seq<Branch>)
    requires forall e :: e in s <==> e in t
    ensures s == [] <==> t == []
  {
    if s != [] {
      assert s[0] in t;
    }
    if t != [] {
      assert t[0] in s;
    }
  }

  lemma HeadLeaves(s: seq<Branch>, e: Branch)
    requires Ordered(s) && s != []
    ensures e in s[1..] <==> e in s && e != s[0]
  {
    if e in s[1..] {
      var i :| 0 <= i < |s| - 1 && s[1..][i] == e;
      BeforeIsAsymmetric(s[0], s[i + 1]);
    }
  }
}
