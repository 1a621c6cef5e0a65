/** Python's sort(key=..., reverse=True): descending, stable. */
module StableSort {

  /** Every earlier element stands in the relation to every later one. */
  ghost predicate Chain<T(!new)>(s: seq<T>, r: (T, T) -> bool) {
    forall i, j | 0 <= i < j < |s| :: r(s[i], s[j])
  }

  function InsertDesc<T>(x: T, s: seq<T>, key: T -> real): (t: seq<T>)
    ensures multiset(t) == multiset(s) + multiset{x}
    ensures |t| == |s| + 1
  {
    if s == [] then [x]
    else if key(x) >= key(s[0]) then
      [x] + s
    else
      assert s == [s[0]] + s[1..];
      [s[0]] + InsertDesc(x, s[1..], key)
  }

  function SortDesc<T>(s: seq<T>, key: T -> real): (t: seq<T>)
    ensures multiset(t) == multiset(s)
    ensures |t| == |s|
  {
    if s == [] then []
    else
      assert s == [s[0]] + s[1..];
      InsertDesc(s[0], SortDesc(s[1..], key), key)
  }

  /** Larger key first; among equal keys, the order the elements came in. */
  function KeyThen<T>(key: T -> real, r: (T, T) -> bool): (T, T) -> bool {
    (x, y) => key(x) > key(y) || (key(x) == key(y) && r(x, y))
  }

  lemma {:induction false} InsertKeepsChain<T(!new)>(x: T, s: seq<T>, key: T -> real, r: (T, T) -> bool)
    requires Chain(s, KeyThen(key, r)) && forall y | y in s :: r(x, y)
    ensures Chain(InsertDesc(x, s, key), KeyThen(key, r))
  {
    var q := KeyThen(key, r);
    if s == [] {
    } else if key(x) >= key(s[0]) {
      forall j | 0 <= j < |s|
        ensures q(x, s[j])
      {
        assert j > 0 ==> q(s[0], s[j]);
        assert s[j] in s;
      }
    } else {
      InsertKeepsChain(x, s[1..], key, r);
      var t := InsertDesc(x, s[1..], key);
      forall j | 0 <= j < |t|
        ensures q(s[0], t[j])
      {
        assert t[j] in multiset(t);
        if t[j] != x {
          assert t[j] in multiset(s[1..]);
          var k :| 0 <= k < |s[1..]| && s[1..][k] == t[j];
          assert q(s[0], s[k + 1]);
        }
      }
    }
  }

  /** Sorting a list that is in order `r` gives the order: key first, then `r`. */
  lemma {:induction false} SortRefinesChain<T(!new)>(s: seq<T>, key: T -> real, r: (T, T) -> bool)
    requires Chain(s, r)
    ensures Chain(SortDesc(s, key), KeyThen(key, r))
  {
    if s != [] {
      var rest := s[1..];
      SortRefinesChain(rest, key, r);
      forall y | y in SortDesc(rest, key)
        ensures r(s[0], y)
      {
        assert y in multiset(SortDesc(rest, key));
        var k :| 0 <= k < |rest| && rest[k] == y;
        assert r(s[0], s[k + 1]);
      }
      InsertKeepsChain(s[0], SortDesc(rest, key), key, r);
    }
  }

  ghost predicate Asymmetric<T(!new)>(r: (T, T) -> bool) {
    forall x, y :: r(x, y) ==> !r(y, x)
  }

  lemma ChainHead<T(!new)>(t: seq<T>, r: (T, T) -> bool, x: T)
    requires Chain(t, r) && x in multiset(t)
    ensures t != [] && (x == t[0] || r(t[0], x))
  {
    var i :| 0 <= i < |t| && t[i] == x;
    assert i == 0 || r(t[0], t[i]);
  }

  ghost predicate Permuted<T(!new)>(s: seq<T>, t: seq<T>) {
    multiset(s) == multiset(t)
  }

  /** Two lists of the same elements in one strict order begin with the same element. */
  lemma HeadsAgree<T(!new)>(s: seq<T>, t: seq<T>, r: (T, T) -> bool)
    requires Chain(s, r) && Chain(t, r) && Asymmetric(r) && Permuted(s, t) && s != []
    ensures t != [] && s[0] == t[0]
  {
    assert s[0] in multiset(s);
    ChainHead(t, r, s[0]);
    assert t[0] in multiset(t);
    ChainHead(s, r, t[0]);
  }

  lemma ChainTail<T(!new)>(s: seq<T>, r: (T, T) -> bool)
    requires Chain(s, r) && s != []
    ensures Chain(s[1..], r)
  {
  }

  lemma TailElements<T(!new)>(s: seq<T>)
    requires s != []
    ensures multiset(s[1..]) == multiset(s) - multiset{s[0]}
  {
    assert s == [s[0]] + s[1..];
  }

  lemma TailsPermuted<T(!new)>(s: seq<T>, t: seq<T>)
    requires Permuted(s, t) && s != [] && t != [] && s[0] == t[0]
    ensures Permuted(s[1..], t[1..])
  {
    TailElements(s);
    TailElements(t);
  }

  lemma EmptyTogether<T(!new)>(s: seq<T>, t: seq<T>)
    requires Permuted(s, t) && s == []
    ensures t == []
  {
    assert |multiset(t)| == |t|;
  }

  lemma SplitEqual<T(!new)>(s: seq<T>, t: seq<T>)
    requires s != [] && t != [] && s[0] == t[0] && s[1..] == t[1..]
    ensures s == t
  {
    assert s == [s[0]] + s[1..] && t == [t[0]] + t[1..];
  }

  /** A list is determined by its elements and a strict order along it. */
  lemma {:induction false} ChainIsUnique<T(!new)>(s: seq<T>, t: seq<T>, r: (T, T) -> bool)
    requires Chain(s, r) && Chain(t, r) && Asymmetric(r) && Permuted(s, t)
    ensures s == t
  {
    hide Chain, Asymmetric, Permuted;
    if s == [] {
      EmptyTogether(s, t);
    } else {
      HeadsAgree(s, t, r);
      ChainTail(s, r);
      ChainTail(t, r);
      TailsPermuted(s, t);
      ChainIsUnique(s[1..], t[1..], r);
      SplitEqual(s, t);
    }
  }
}
