/** Post-execution feedback on row-estimate confidence, over whole feedback histories, in exact arithmetic. */
module Confidence {

  const DEFAULT := 0.8
  const FLOOR := 0.1

  datatype Feedback = Feedback(table: string, operation: string, actual: int, estimated: int)

  datatype Kind = Under | Over | Accurate

  function KindOf(f: Feedback): Kind {
    if f.estimated <= 0 then if f.actual > 0 then Under else Accurate
    else if f.actual as real > f.estimated as real * 1.1 then Under
    else if (f.actual as real) < f.estimated as real * 0.9 then Over
    else Accurate
  }

  function Penalty(k: Kind): real {
    match k case Under => 0.05 case Over => 0.02 case Accurate => 0.0
  }

  function Key(table: string, operation: string): string {
    table + ":" + operation
  }

  function Lookup(store: map<string, real>, key: string): real {
    if key in store then store[key] else DEFAULT
  }

  function Clamp(x: real): real {
    if x < FLOOR then FLOOR else if x > 1.0 then 1.0 else x
  }

  function Apply(store: map<string, real>, f: Feedback): map<string, real> {
    var key := Key(f.table, f.operation);
    store[key := Clamp(Lookup(store, key) - Penalty(KindOf(f)))]
  }

  class ConfidenceStore {
    var scores: map<string, real>

    constructor (scores: map<string, real>)
      ensures this.scores == scores
    {
      this.scores := scores;
    }

    method UpdateConfidence(f: Feedback) returns (confidence: real)
      modifies this
      ensures scores == Apply(old(scores), f)
      ensures confidence == Lookup(scores, Key(f.table, f.operation)) && 0.1 <= confidence <= 1.0
    {
      var key := Key(f.table, f.operation);
      var current := Lookup(scores, key);
      var next := current;
      if f.estimated <= 0 {
        if f.actual > 0 {
          next := current - 0.05;
        }
      } else if f.actual as real > f.estimated as real * 1.1 {
        next := current - 0.05;
      } else if (f.actual as real) < f.estimated as real * 0.9 {
        next := current - 0.02;
      }
      next := Clamp(next);
      scores := scores[key := next];
      return next;
    }
  }

  function ApplyAll(store: map<string, real>, fs: seq<Feedback>): map<string, real> {
    if fs == [] then store else Apply(ApplyAll(store, fs[..|fs| - 1]), fs[|fs| - 1])
  }

  /** How many of the feedbacks concern this table and operation and are of this kind. */
  function Count(fs: seq<Feedback>, table: string, operation: string, k: Kind): nat {
    if fs == [] then 0
    else
      var f := fs[|fs| - 1];
      Count(fs[..|fs| - 1], table, operation, k)
      + if f.table == table && f.operation == operation && KindOf(f) == k then 1 else 0
  }

  predicate ColonFree(s: string) {
    ':' !in s
  }

  /** The last colon of a key stands right behind the table. */
  lemma LastColon(t: string, o: string)
    requires ColonFree(o)
    ensures forall j | |t| <= j < |Key(t, o)| :: Key(t, o)[j] == ':' <==> j == |t|
  {
    forall j | |t| < j < |Key(t, o)|
      ensures Key(t, o)[j] != ':'
    {
      assert o[j - |t| - 1] in o;
    }
  }

  /** Keys separate (table, operation) pairs because operation types contain no colon; tables may. */
  lemma KeysAreDistinct(t: string, o: string, t': string, o': string)
    requires ColonFree(o) && ColonFree(o') && Key(t, o) == Key(t', o')
    ensures t == t' && o == o'
  {
    var k := Key(t, o);
    LastColon(t, o);
    LastColon(t', o');
    assert k[|t|] == ':' && k[|t'|] == ':';
    assert k[..|t|] == t && k[..|t'|] == t';
    assert k[|t| + 1..] == o && k[|t'| + 1..] == o';
  }

  /** With colons in the operation they would not: two pairs share a key. */
  lemma ColonsCollide()
    ensures Key("a:b", "c") == Key("a", "b:c") && !ColonFree("b:c")
  {
    assert Key("a:b", "c") == "a:b:c" == Key("a", "b:c");
    assert "b:c"[1] == ':';
  }

  function AtLeastFloor(x: real): real {
    if x < FLOOR then FLOOR else x
  }

  /** After any feedback history, a pair's confidence depends only on how often it was under- and overestimated:
      not on the order, and not on the feedback for any other pair. */
  lemma {:induction false} ConfidenceHasClosedForm(
    store: map<string, real>, fs: seq<Feedback>, table: string, operation: string)
    requires ColonFree(operation) && forall i | 0 <= i < |fs| :: ColonFree(fs[i].operation)
    requires FLOOR <= Lookup(store, Key(table, operation)) <= 1.0
    ensures Lookup(ApplyAll(store, fs), Key(table, operation)) ==
            AtLeastFloor(Lookup(store, Key(table, operation))
                         - 0.05 * (Count(fs, table, operation, Under) as real)
                         - 0.02 * (Count(fs, table, operation, Over) as real))
  {
    hide Apply, Lookup, Key, KindOf;
    if fs != [] {
      var init, f := fs[..|fs| - 1], fs[|fs| - 1];
      ConfidenceHasClosedForm(store, init, table, operation);
      FeedbackMovesConfidence(ApplyAll(store, init), f, table, operation);
    }
  }

  /** One feedback lowers the confidence of its own pair by its penalty, down to the floor, and no other pair's. */
  lemma FeedbackMovesConfidence(store: map<string, real>, f: Feedback, table: string, operation: string)
    requires ColonFree(operation) && ColonFree(f.operation)
    requires FLOOR <= Lookup(store, Key(table, operation)) <= 1.0
    ensures Lookup(Apply(store, f), Key(table, operation)) ==
            if f.table == table && f.operation == operation
            then AtLeastFloor(Lookup(store, Key(table, operation)) - Penalty(KindOf(f)))
            else Lookup(store, Key(table, operation))
  {
    hide Key, KindOf;
    if (f.table != table || f.operation != operation) && Key(f.table, f.operation) == Key(table, operation) {
      KeysAreDistinct(f.table, f.operation, table, operation);
    }
  }

  lemma {:induction false} CountOfConcat(a: seq<Feedback>, b: seq<Feedback>, table: string, operation: string, k: Kind)
    ensures Count(a + b, table, operation, k) == Count(a, table, operation, k) + Count(b, table, operation, k)
  {
    if b == [] {
      assert a + b == a;
    } else {
      CountOfConcat(a, b[..|b| - 1], table, operation, k);
      assert (a + b)[..|a + b| - 1] == a + b[..|b| - 1];
    }
  }

  /** A pair that was never heard of starts at 0.8. */
  lemma FreshPairHasClosedForm(fs: seq<Feedback>, table: string, operation: string)
    requires ColonFree(operation) && forall i | 0 <= i < |fs| :: ColonFree(fs[i].operation)
    ensures var u, v := Count(fs, table, operation, Under), Count(fs, table, operation, Over);
      var c := 0.8 - 0.05 * u as real - 0.02 * v as real;
      Lookup(ApplyAll(map[], fs), Key(table, operation)) == if c < 0.1 then 0.1 else c
  {
    hide Key, ApplyAll, Count;
    ConfidenceHasClosedForm(map[], fs, table, operation);
  }

  /** In whole numbers: an underestimate is off by more than a tenth upwards, an overestimate downwards; without an
      estimate any row is an underestimate. */
  lemma KindsInWholeNumbers(f: Feedback)
    ensures KindOf(f) == Under <==> if f.estimated > 0 then 10 * f.actual > 11 * f.estimated else f.actual > 0
    ensures KindOf(f) == Over <==> f.estimated > 0 && 10 * f.actual < 9 * f.estimated
  {
  }

  /** Taking one element out of a history. */
  lemma CountWithout(gs: seq<Feedback>, i: nat, table: string, operation: string, k: Kind)
    requires i < |gs|
    ensures multiset(gs) == multiset(gs[..i] + gs[i + 1..]) + multiset{gs[i]}
    ensures Count(gs, table, operation, k) ==
            Count(gs[..i] + gs[i + 1..], table, operation, k) + Count([gs[i]], table, operation, k)
  {
    var before, rest := gs[..i], gs[i + 1..];
    assert gs == before + ([gs[i]] + rest);
    CountOfConcat(before, [gs[i]] + rest, table, operation, k);
    CountOfConcat([gs[i]], rest, table, operation, k);
    CountOfConcat(before, rest, table, operation, k);
  }

  lemma {:induction false} CountIgnoresOrder(
    fs: seq<Feedback>, gs: seq<Feedback>, table: string, operation: string, k: Kind)
    requires multiset(fs) == multiset(gs)
    ensures Count(fs, table, operation, k) == Count(gs, table, operation, k)
    decreases |fs|
  {
    hide Count;
    if fs == [] {
      assert |multiset(gs)| == 0;
      assert gs == [];
    } else {
      assert fs[0] in multiset(gs);
      var i :| 0 <= i < |gs| && gs[i] == fs[0];
      CountWithout(fs, 0, table, operation, k);
      CountWithout(gs, i, table, operation, k);
      assert multiset(fs[..0] + fs[1..]) == multiset(fs) - multiset{fs[0]};
      assert multiset(gs[..i] + gs[i + 1..]) == multiset(gs) - multiset{gs[i]};
      CountIgnoresOrder(fs[..0] + fs[1..], gs[..i] + gs[i + 1..], table, operation, k);
    }
  }

  /** Feedback arriving in another order leaves the same confidence. */
  lemma OrderOfFeedbackDoesNotMatter(
    store: map<string, real>, fs: seq<Feedback>, gs: seq<Feedback>, table: string, operation: string)
    requires multiset(fs) == multiset(gs)
    requires ColonFree(operation) && forall i | 0 <= i < |fs| :: ColonFree(fs[i].operation)
    requires FLOOR <= Lookup(store, Key(table, operation)) <= 1.0
    ensures Lookup(ApplyAll(store, fs), Key(table, operation)) == Lookup(ApplyAll(store, gs), Key(table, operation))
  {
    hide Lookup, ApplyAll, Count, Key, AtLeastFloor;
    forall i | 0 <= i < |gs|
      ensures ColonFree(gs[i].operation)
    {
      assert gs[i] in multiset(fs);
      var j :| 0 <= j < |fs| && fs[j] == gs[i];
    }
    ConfidenceHasClosedForm(store, fs, table, operation);
    ConfidenceHasClosedForm(store, gs, table, operation);
    CountIgnoresOrder(fs, gs, table, operation, Under);
    CountIgnoresOrder(fs, gs, table, operation, Over);
  }
}
