/** The three retrieval stages after the semantic search: overlap filter, outcome rerank, top three. */
module Retrieval {
  import opened Handoff
  import opened StableSort
  import Risk

  /** A stage-1 candidate; `pos` is its place in the stage-1 answer. A missing blast-radius delta is 0. */
  datatype Candidate = Candidate(
    pos: nat,
    tables: set<string>,
    outcome: string,
    delta: real,
    similarity: real,
    jaccard: real,
    rerank: real)

  const TOP: nat := 3

  function Jaccard(a: set<string>, b: set<string>): (j: real)
    ensures 0.0 <= j <= 1.0
    ensures j == 1.0 <==> a == b
  {
    if a == {} && b == {} then 1.0
    else if a == {} || b == {} then 0.0
    else
      OverlapSizes(a, b);
      (|a * b| as real) / (|a + b| as real)
  }

  /** The overlap is the shared part of all tables; it does not depend on which side comes first. */
  lemma JaccardIsTheSharedPart(a: set<string>, b: set<string>)
    ensures a + b != {} ==> Jaccard(a, b) * |a + b| as real == |a * b| as real
    ensures Jaccard(a, b) == Jaccard(b, a)
  {
    assert a * b == b * a && a + b == b + a;
    if a != {} && b != {} {
      OverlapSizes(a, b);
    } else {
      assert a * b == {};
    }
  }

  lemma OverlapSizes(a: set<string>, b: set<string>)
    requires a != {}
    ensures 0 < |a + b| && |a * b| <= |a + b|
    ensures |a * b| == |a + b| <==> a == b
  {
    assert a * b <= a + b;
    SubsetSizes(a * b, a + b);
    SubsetSizes(a, a + b);
    if a == b {
      assert a * b == a + b;
    }
  }

  lemma {:induction false} SubsetSizes(x: set<string>, y: set<string>)
    requires x <= y
    ensures |x| <= |y|
    ensures |x| == |y| <==> x == y
    ensures x != {} ==> |y| > 0
  {
    assert y == x + (y - x);
    assert |y| == |x| + |y - x|;
  }

  function OutcomeScore(c: Candidate): real {
    if c.outcome == "REJECTED" then 1.0
    else if c.outcome == "ROLLED_BACK" then 0.9
    else if (c.outcome == "APPROVED" || c.outcome == "AUTO_REJECTED") && (c.delta > 0.2 || c.delta < -0.2) then 0.7
    else if c.outcome == "MODIFIED" then 0.5
    else 0.1 * c.similarity
  }

  /** How much a precedent should alarm: rejected, rolled back, off by more than a fifth, modified, or none of these. */
  function Severity(c: Candidate): nat {
    if c.outcome == "REJECTED" then 4
    else if c.outcome == "ROLLED_BACK" then 3
    else if c.outcome in ["APPROVED", "AUTO_REJECTED"] && !(-0.2 <= c.delta <= 0.2) then 2
    else if c.outcome == "MODIFIED" then 1
    else 0
  }

  /** The score of each class. With similarities of at most 1 a more severe precedent always scores higher, and
      similarity only counts among those of no severity. */
  lemma ScoresFollowSeverity(x: Candidate, y: Candidate)
    requires x.similarity <= 1.0 && y.similarity <= 1.0
    ensures OutcomeScore(x) == match Severity(x)
                               case 0 => 0.1 * x.similarity case 1 => 0.5 case 2 => 0.7 case 3 => 0.9 case _ => 1.0
    ensures Severity(x) > Severity(y) ==> OutcomeScore(x) > OutcomeScore(y)
    ensures Severity(x) == Severity(y) > 0 ==> OutcomeScore(x) == OutcomeScore(y)
    ensures Severity(x) == Severity(y) == 0 ==>
              (OutcomeScore(x) > OutcomeScore(y) <==> x.similarity > y.similarity)
  {
  }

  // ----- stage 2 -----

  /** The candidates that pass the threshold, in stage-1 order, with their rounded overlap.
      `round` stands for round(x, 4). */
  function Passing(cs: seq<Candidate>, current: set<string>, threshold: real, round: real -> real): seq<Candidate> {
    if cs == [] then []
    else
      var c := cs[|cs| - 1];
      var rest := Passing(cs[..|cs| - 1], current, threshold, round);
      var j := Jaccard(current, c.tables);
      if j >= threshold then rest + [c.(jaccard := round(j))] else rest
  }

  function JaccardKey(): Candidate -> real {
    (c: Candidate) => c.jaccard
  }

  function OutcomeKey(): Candidate -> real {
    (c: Candidate) => OutcomeScore(c)
  }

  method FilterByTableOverlap(cs: seq<Candidate>, current: set<string>, threshold: real, round: real -> real)
    returns (filtered: seq<Candidate>)
    ensures filtered == SortDesc(Passing(cs, current, threshold, round), JaccardKey())
  {
    filtered := [];
    for i := 0 to |cs|
      invariant filtered == Passing(cs[..i], current, threshold, round)
    {
      assert cs[..i + 1][..i] == cs[..i];
      var j := Jaccard(current, cs[i].tables);
      if j >= threshold {
        filtered := filtered + [cs[i].(jaccard := round(j))];
      }
    }
    assert cs[..|cs|] == cs;
    filtered := SortDesc(filtered, JaccardKey());
  }

  // ----- stage 3 -----

  function Rescored(c: Candidate, round: real -> real): Candidate {
    c.(rerank := round(OutcomeScore(c)))
  }

  function Reranked(cs: seq<Candidate>, round: real -> real): seq<Candidate> {
    seq(|cs|, i requires 0 <= i < |cs| => Rescored(cs[i], round))
  }

  function Take(cs: seq<Candidate>, n: nat): seq<Candidate> {
    if |cs| <= n then cs else cs[..n]
  }

  method RerankByOutcome(cs: seq<Candidate>, round: real -> real) returns (top: seq<Candidate>)
    ensures top == Take(Reranked(SortDesc(cs, OutcomeKey()), round), TOP)
  {
    var sorted := SortDesc(cs, OutcomeKey());
    var ranked := sorted;
    for i := 0 to |sorted|
      invariant |ranked| == |sorted|
      invariant forall k | 0 <= k < i :: ranked[k] == Rescored(sorted[k], round)
      invariant forall k | i <= k < |sorted| :: ranked[k] == sorted[k]
    {
      ranked := ranked[i := Rescored(ranked[i], round)];
    }
    assert ranked == Reranked(sorted, round);
    top := Take(ranked, TOP);
  }

  /** Which stage's tool raises. */
  datatype Failures = Failures(search: bool, filter: bool, rerank: bool)

  /** No stage that is reached raises; an empty stage 1 or 2 ends the retrieval. */
  predicate Available(
    cs: seq<Candidate>, current: set<string>, threshold: real, round: real -> real, x: Failures)
  {
    && !x.search
    && (cs != [] ==> !x.filter && (Passing(cs, current, threshold, round) != [] ==> !x.rerank))
  }

  /** The three stages in sequence, where `cs` is what stage 1 has to answer. A stage that raises leaves none. */
  method Retrieve(cs: seq<Candidate>, current: set<string>, threshold: real, round: real -> real, x: Failures)
    returns (precedents: seq<Candidate>, available: bool)
    ensures available <==> Available(cs, current, threshold, round, x)
    ensures precedents == if available then Precedents(cs, current, threshold, round) else []
  {
    if x.search {
      return [], false;
    }
    if cs == [] {
      return [], true;
    }
    if x.filter {
      return [], false;
    }
    var filtered := FilterByTableOverlap(cs, current, threshold, round);
    if filtered == [] {
      return [], true;
    }
    if x.rerank {
      return [], false;
    }
    precedents := RerankByOutcome(filtered, round);
    available := true;
  }

  function Ranking(cs: seq<Candidate>, current: set<string>, threshold: real, round: real -> real): seq<Candidate> {
    SortDesc(SortDesc(Passing(cs, current, threshold, round), JaccardKey()), OutcomeKey())
  }

  function Precedents(cs: seq<Candidate>, current: set<string>, threshold: real, round: real -> real): seq<Candidate> {
    Take(Reranked(Ranking(cs, current, threshold, round), round), TOP)
  }

  // ----- the ranking as one order -----

  predicate Numbered(cs: seq<Candidate>) {
    forall i | 0 <= i < |cs| :: cs[i].pos == i
  }

  /** Outcome score first, then rounded overlap, then stage-1 order. */
  predicate Precedes(x: Candidate, y: Candidate) {
    || OutcomeScore(x) > OutcomeScore(y)
    || (&& OutcomeScore(x) == OutcomeScore(y)
        && (x.jaccard > y.jaccard || (x.jaccard == y.jaccard && x.pos < y.pos)))
  }

  function Order(): (Candidate, Candidate) -> bool {
    (x, y) => Precedes(x, y)
  }

  function StageOrder(): (Candidate, Candidate) -> bool {
    (x: Candidate, y: Candidate) => x.pos < y.pos
  }

  lemma {:induction false} PassingKeepsStageOrder(
    cs: seq<Candidate>, current: set<string>, threshold: real, round: real -> real)
    requires Numbered(cs)
    ensures Chain(Passing(cs, current, threshold, round), StageOrder())
    ensures forall c | c in Passing(cs, current, threshold, round) :: c.pos < |cs|
  {
    if cs != [] {
      PassingKeepsStageOrder(cs[..|cs| - 1], current, threshold, round);
    }
  }

  /** Filter then rerank, two stable sorts, is one sort by (outcome score, rounded overlap, stage-1 order):
      any arrangement of the passing candidates in that order is the ranking. */
  lemma RankingIsOneLexicographicSort(
    cs: seq<Candidate>, current: set<string>, threshold: real, round: real -> real, t: seq<Candidate>)
    requires Numbered(cs)
    ensures Chain(Ranking(cs, current, threshold, round), Order())
    ensures multiset(t) == multiset(Passing(cs, current, threshold, round)) && Chain(t, Order())
            ==> t == Ranking(cs, current, threshold, round)
  {
    var p := Passing(cs, current, threshold, round);
    PassingKeepsStageOrder(cs, current, threshold, round);
    SortRefinesChain(p, JaccardKey(), StageOrder());
    var byJaccard := SortDesc(p, JaccardKey());
    var after := KeyThen(JaccardKey(), StageOrder());
    SortRefinesChain(byJaccard, OutcomeKey(), after);
    var r := SortDesc(byJaccard, OutcomeKey());
    forall i, j | 0 <= i < j < |r|
      ensures Order()(r[i], r[j])
    {
      assert KeyThen(OutcomeKey(), after)(r[i], r[j]);
    }
    if multiset(t) == multiset(p) && Chain(t, Order()) {
      ChainIsUnique(t, r, Order());
    }
  }

  /** The ranking never puts a precedent before a more severe one. */
  lemma RankingDescendsInSeverity(
    cs: seq<Candidate>, current: set<string>, threshold: real, round: real -> real, i: nat, j: nat)
    requires Numbered(cs) && SimilaritiesAtMostOne(cs)
    requires i < j < |Ranking(cs, current, threshold, round)|
    ensures var r := Ranking(cs, current, threshold, round); Severity(r[i]) >= Severity(r[j])
  {
    var r := Ranking(cs, current, threshold, round);
    RankingIsOneLexicographicSort(cs, current, threshold, round, r);
    PassingMembers(cs, current, threshold, round);
    assert Order()(r[i], r[j]);
    RankedPasses(cs, current, threshold, round, i);
    RankedPasses(cs, current, threshold, round, j);
    ScoresFollowSeverity(r[j], r[i]);
  }

  lemma RankedPasses(cs: seq<Candidate>, current: set<string>, threshold: real, round: real -> real, i: nat)
    requires i < |Ranking(cs, current, threshold, round)|
    ensures Ranking(cs, current, threshold, round)[i] in Passing(cs, current, threshold, round)
  {
    var r := Ranking(cs, current, threshold, round);
    assert multiset(r) == multiset(Passing(cs, current, threshold, round));
    assert r[i] in multiset(r);
  }

  /** The precedents are the first three of the ranking, or all if there are fewer, each with its rounded score. */
  lemma PrecedentsAreTheTopThree(
    cs: seq<Candidate>, current: set<string>, threshold: real, round: real -> real, i: nat)
    ensures var top, r := Precedents(cs, current, threshold, round), Ranking(cs, current, threshold, round);
      && |r| == |Passing(cs, current, threshold, round)|
      && |top| == (if |r| < 3 then |r| else 3)
      && (i < |top| ==> top[i] == r[i].(rerank := round(OutcomeScore(r[i]))))
  {
  }

  // ----- a rejected precedent always surfaces -----

  predicate AnyRejectedPasses(cs: seq<Candidate>, current: set<string>, threshold: real) {
    exists i | 0 <= i < |cs| :: cs[i].outcome == "REJECTED" && Jaccard(current, cs[i].tables) >= threshold
  }

  predicate SimilaritiesAtMostOne(cs: seq<Candidate>) {
    forall i | 0 <= i < |cs| :: cs[i].similarity <= 1.0
  }

  lemma {:induction false} PassingMembers(
    cs: seq<Candidate>, current: set<string>, threshold: real, round: real -> real)
    ensures AnyRejectedPasses(cs, current, threshold) <==>
            exists c | c in Passing(cs, current, threshold, round) :: c.outcome == "REJECTED"
    ensures SimilaritiesAtMostOne(cs) ==> forall c | c in Passing(cs, current, threshold, round) :: c.similarity <= 1.0
  {
    if cs != [] {
      var n := |cs| - 1;
      PassingMembers(cs[..n], current, threshold, round);
      var rest := Passing(cs[..n], current, threshold, round);
      var p := Passing(cs, current, threshold, round);
      assert forall c | c in rest :: c in p;
      if cs[n].outcome == "REJECTED" && Jaccard(current, cs[n].tables) >= threshold {
        assert p[|p| - 1].outcome == "REJECTED";
      }
      if AnyRejectedPasses(cs[..n], current, threshold) {
        var i :| 0 <= i < n && cs[..n][i].outcome == "REJECTED" && Jaccard(current, cs[..n][i].tables) >= threshold;
        assert cs[i].outcome == "REJECTED";
      }
    }
  }

  lemma RejectedLeadsChain(r: seq<Candidate>, p: seq<Candidate>)
    requires multiset(r) == multiset(p) && Chain(r, Order())
    requires forall c | c in p :: c.similarity <= 1.0
    ensures if exists c | c in p :: c.outcome == "REJECTED" then r != [] && r[0].outcome == "REJECTED"
            else forall i | 0 <= i < |r| :: r[i].outcome != "REJECTED"
  {
    forall i | 0 <= i < |r|
      ensures r[i] in p
    {
      assert r[i] in multiset(r);
    }
    if c :| c in p && c.outcome == "REJECTED" {
      assert c in multiset(p);
      ChainHead(r, Order(), c);
      assert OutcomeScore(r[0]) >= OutcomeScore(c);
    }
  }

  /** In the ranking, a rejected candidate comes first if there is one at all. */
  lemma RejectedRanksFirst(cs: seq<Candidate>, current: set<string>, threshold: real, round: real -> real)
    requires Numbered(cs) && SimilaritiesAtMostOne(cs)
    ensures var r := Ranking(cs, current, threshold, round);
      if AnyRejectedPasses(cs, current, threshold) then r != [] && r[0].outcome == "REJECTED"
      else forall i | 0 <= i < |r| :: r[i].outcome != "REJECTED"
  {
    var r := Ranking(cs, current, threshold, round);
    PassingMembers(cs, current, threshold, round);
    RankingIsOneLexicographicSort(cs, current, threshold, round, r);
    RejectedLeadsChain(r, Passing(cs, current, threshold, round));
  }

  /** However many candidates there are, a rejected one that passes the overlap threshold puts a rejected
      one first, and the operation is then classified FULL_CONTRACT; and a rejected precedent only comes from one. */
  lemma RejectedPrecedentForcesFullContract(
    cs: seq<Candidate>, current: set<string>, threshold: real, round: real -> real, f: Risk.Facts)
    requires Numbered(cs) && SimilaritiesAtMostOne(cs)
    ensures var top := Precedents(cs, current, threshold, round);
      var g := f.(precedentOutcomes := Outcomes(top));
      && |top| <= TOP
      && (AnyRejectedPasses(cs, current, threshold) ==>
            top != [] && top[0].outcome == "REJECTED" && Risk.Tier(g) == FULL_CONTRACT)
      && (!AnyRejectedPasses(cs, current, threshold) ==> "REJECTED" !in g.precedentOutcomes)
  {
    hide Risk.Tier, Ranking, AnyRejectedPasses;
    RejectedRanksFirst(cs, current, threshold, round);
    var r := Ranking(cs, current, threshold, round);
    var top := Precedents(cs, current, threshold, round);
    assert forall i | 0 <= i < |top| :: top[i].outcome == r[i].outcome;
    if AnyRejectedPasses(cs, current, threshold) {
      assert Outcomes(top)[0] == "REJECTED";
      Risk.RejectionForcesFullContract(f.(precedentOutcomes := Outcomes(top)));
    }
  }

  /** With tools that may raise: a passing rejected candidate forces FULL_CONTRACT if and only if the retrieval is
      available or the operation is FULL_CONTRACT without any precedent. */
  lemma RejectedForcesFullContractUnlessLost(
    cs: seq<Candidate>, current: set<string>, threshold: real, round: real -> real, x: Failures, f: Risk.Facts)
    requires Numbered(cs) && SimilaritiesAtMostOne(cs) && AnyRejectedPasses(cs, current, threshold)
    ensures var available := Available(cs, current, threshold, round, x);
      var found := if available then Precedents(cs, current, threshold, round) else [];
      Risk.Tier(f.(precedentOutcomes := Outcomes(found))) == FULL_CONTRACT
      <==> available || Risk.Tier(f.(precedentOutcomes := [])) == FULL_CONTRACT
  {
    hide Risk.Tier, Precedents;
    assert Outcomes([]) == [];
    RejectedPrecedentForcesFullContract(cs, current, threshold, round, f);
  }

  /** Such a loss: a small INSERT whose only precedent was rejected, and a failed search. */
  lemma LostRejectionLowersTier(round: real -> real) returns (cs: seq<Candidate>, x: Failures, f: Risk.Facts)
    ensures Numbered(cs) && SimilaritiesAtMostOne(cs) && AnyRejectedPasses(cs, {"orders"}, 0.3)
    ensures !Available(cs, {"orders"}, 0.3, round, x)
    ensures Risk.Tier(f.(precedentOutcomes := Outcomes(Precedents(cs, {"orders"}, 0.3, round)))) == FULL_CONTRACT
    ensures Risk.Tier(f.(precedentOutcomes := [])) == STANDARD
  {
    cs, x := [Candidate(0, {"orders"}, "REJECTED", 0.0, 0.9, 0.0, 0.0)], Failures(true, false, false);
    f := Risk.Facts(INSERT, 1, [], 0, [], 0.8, 0, Some(REVERSIBLE_AUTOMATED), None, false);
    assert cs[0].outcome == "REJECTED" && Jaccard({"orders"}, cs[0].tables) == 1.0;
    RejectedPrecedentForcesFullContract(cs, {"orders"}, 0.3, round, f);
  }

  function Outcomes(cs: seq<Candidate>): seq<string> {
    seq(|cs|, i requires 0 <= i < |cs| => cs[i].outcome)
  }
}
