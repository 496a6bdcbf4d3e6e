/** The tie cascade of scoring.py (`place_ties` inside `competition`), stated
    as the order in which it fills consecutive slots. One recursion serves
    both criteria, switched by the flag `i`: under `'sum'` the smallest rank
    sums lead, under `'tally'` the largest tallies; a tied sub-group goes one
    level down under `'tally'`, and whatever follows a lone leader or a tied
    sub-group is compared under `'sum'` again. */
module ScoringTies {
  import opened ScoreTable
  import opened Placement
  import opened Tiebreak
  import opened SlotTable

  /** The one routine of a group of one. */
  ghost function TheOne(g: set<Routine>): (r: Routine)
    requires |g| == 1
    ensures g == {r}
  {
    NonEmptyHasMember(g);
    var r :| r in g;
    SubsetCard({r}, g);
    assert g == {r} by {
      if g != {r} {
        SubsetCard({r}, g);
      }
    }
    r
  }

  /** A routine of `g` with the best (smallest) head-judge rank. */
  ghost function RankLeader(g: set<Routine>, rank: map<Routine, int>): (m: Routine)
    requires g <= rank.Keys && g != {}
    ensures m in g && forall x :: x in g ==> rank[m] <= rank[x]
  {
    MinGroupNonEmpty(g, rank);
    NonEmptyHasMember(MinGroup(g, rank));
    var m :| m in MinGroup(g, rank);
    m
  }

  /** The routines of `g` in ascending order of the head judge's ranks. */
  ghost function ByRank(g: set<Routine>, rank: map<Routine, int>): seq<Routine>
    requires g <= rank.Keys
    decreases |g|
  {
    if g == {} then []
    else
      var m := RankLeader(g, rank);
      SubsetCard(g - {m}, g);
      [m] + ByRank(g - {m}, rank)
  }

  /** The routines `place_ties` places first at `level`: the smallest rank
      sums under `'sum'` (`bySum`), the largest tallies under `'tally'`. */
  ghost function Leaders(c: Criteria, g: set<Routine>, level: int, bySum: bool): set<Routine>
  {
    if bySum then c.SumTie(g, level) else c.CountTie(g, level)
  }

  /** `place_ties(routines, place, count, i)`: the routines of `g` in the
      order it writes them into the slots from `place` on. */
  ghost function PlaceTiesOrder(c: Criteria, g: set<Routine>, level: int, bySum: bool): seq<Routine>
    requires g <= c.rank.Keys
    decreases LevelsLeft(c, level), |g|, 1
  {
    if |g| == 0 then []
    else if |g| == 1 then [TheOne(g)]
    else if level >= c.last then ByRank(g, c.rank)
    else
      LeadersNonEmpty(c, g, level, bySum);
      PlaceTiesJoin(c, g, Leaders(c, g, level, bySum), level)
  }

  /** The leaders `tie` first, then the rest under `'sum'` at the same level;
      two or more leaders are themselves ordered one level down under `'tally'`. */
  ghost function PlaceTiesJoin(c: Criteria, g: set<Routine>, tie: set<Routine>, level: int): seq<Routine>
    requires g <= c.rank.Keys && level < c.last && tie <= g && tie != {}
    decreases LevelsLeft(c, level), |g|, 0
  {
    SubsetCard(g - tie, g);
    if |tie| == 1 then [TheOne(tie)] + PlaceTiesOrder(c, g - tie, level, true)
    else PlaceTiesOrder(c, tie, level + 1, false) + PlaceTiesOrder(c, g - tie, level, true)
  }

  lemma LeadersNonEmpty(c: Criteria, g: set<Routine>, level: int, bySum: bool)
    requires g != {}
    ensures Leaders(c, g, level, bySum) != {} && Leaders(c, g, level, bySum) <= g
  {
    if bySum {
      MinGroupNonEmpty(g, c.Sums(g, level));
    } else {
      MaxGroupNonEmpty(g, c.Counts(g, level));
    }
  }

  // ---------------------------------------------------------------------------
  // The head judge's order.

  /** Every routine of `g` is listed once. */
  lemma {:induction false} ByRankLists(g: set<Routine>, rank: map<Routine, int>)
    requires g <= rank.Keys
    ensures Lists(ByRank(g, rank), g)
    decreases |g|
  {
    if g != {} {
      var m := RankLeader(g, rank);
      SubsetCard(g - {m}, g);
      ByRankLists(g - {m}, rank);
      assert ByRank(g, rank) == [m] + ByRank(g - {m}, rank);
      ListsSplit([m], {m}, ByRank(g - {m}, rank), g);
    }
  }

  /** The head-judge rule: a better head-judge rank comes first. */
  lemma {:induction false} ByRankOrder(g: set<Routine>, rank: map<Routine, int>, r: Routine, q: Routine)
    requires g <= rank.Keys && r in g && q in g && rank[r] < rank[q]
    ensures ListedBefore(ByRank(g, rank), r, q)
    decreases |g|
  {
    var m := RankLeader(g, rank);
    SubsetCard(g - {m}, g);
    var rest := ByRank(g - {m}, rank);
    assert ByRank(g, rank) == [m] + rest;
    assert q != m by {
      assert rank[m] <= rank[r];
    }
    if r == m {
      ByRankLists(g - {m}, rank);
      ListsMember(rest, g - {m}, q);
      BeforeAcross([m], rest, r, q);
    } else {
      ByRankOrder(g - {m}, rank, r, q);
      BeforeRight([m], rest, r, q);
    }
  }

  /** Under distinct ranks the routine with the smallest rank is listed first. */
  lemma ByRankFirst(g: set<Routine>, rank: map<Routine, int>, w: Routine)
    requires g <= rank.Keys && DistinctRanks(g, rank)
    requires w in g && forall x :: x in g ==> rank[w] <= rank[x]
    ensures ByRank(g, rank) == [w] + ByRank(g - {w}, rank)
  {
    var m := RankLeader(g, rank);
    assert m == w by {
      assert !Apart(rank, m, w);
    }
  }

  // ---------------------------------------------------------------------------
  // `place_ties` on k routines from slot p fills exactly p .. p + k - 1.

  /** Every routine of the group is written once, into the group's own
      slots (`Put` writes `|g|` consecutive slots). */
  lemma {:induction false} PlaceTiesLists(c: Criteria, g: set<Routine>, level: int, bySum: bool)
    requires g <= c.rank.Keys
    ensures Lists(PlaceTiesOrder(c, g, level, bySum), g)
    decreases LevelsLeft(c, level), |g|, 1
  {
    if |g| == 0 {
      ListsNone();
    } else if |g| == 1 {
      ListsOne(TheOne(g), g);
    } else if level >= c.last {
      ByRankLists(g, c.rank);
    } else {
      LeadersNonEmpty(c, g, level, bySum);
      PlaceTiesJoinLists(c, g, Leaders(c, g, level, bySum), level);
    }
  }

  lemma {:induction false} PlaceTiesJoinLists(c: Criteria, g: set<Routine>, tie: set<Routine>, level: int)
    requires g <= c.rank.Keys && level < c.last && tie <= g && tie != {}
    ensures Lists(PlaceTiesJoin(c, g, tie, level), g)
    decreases LevelsLeft(c, level), |g|, 0
  {
    SubsetCard(g - tie, g);
    PlaceTiesLists(c, g - tie, level, true);
    if |tie| == 1 {
      ListsOne(TheOne(tie), tie);
      ListsSplit([TheOne(tie)], tie, PlaceTiesOrder(c, g - tie, level, true), g);
    } else {
      PlaceTiesLists(c, tie, level + 1, false);
      ListsSplit(PlaceTiesOrder(c, tie, level + 1, false), tie, PlaceTiesOrder(c, g - tie, level, true), g);
    }
  }

  // ---------------------------------------------------------------------------
  // The order `place_ties` produces.

  /** The leaders of a level come before everyone else of the group, under
      either criterion. */
  lemma LeadersFirst(c: Criteria, g: set<Routine>, level: int, bySum: bool, r: Routine, q: Routine)
    requires g <= c.rank.Keys && level < c.last
    requires r in Leaders(c, g, level, bySum) && q in g - Leaders(c, g, level, bySum)
    ensures ListedBefore(PlaceTiesOrder(c, g, level, bySum), r, q)
  {
    var tie := Leaders(c, g, level, bySum);
    LeadersNonEmpty(c, g, level, bySum);
    SubsetCard({r, q}, g);
    SubsetCard(g - tie, g);
    var rest := PlaceTiesOrder(c, g - tie, level, true);
    PlaceTiesLists(c, g - tie, level, true);
    ListsMember(rest, g - tie, q);
    assert |{r, q}| == 2;
    assert PlaceTiesOrder(c, g, level, bySum) == PlaceTiesJoin(c, g, tie, level);
    if |tie| == 1 {
      BeforeAcross([TheOne(tie)], rest, r, q);
    } else {
      PlaceTiesLists(c, tie, level + 1, false);
      ListsMember(PlaceTiesOrder(c, tie, level + 1, false), tie, r);
      BeforeAcross(PlaceTiesOrder(c, tie, level + 1, false), rest, r, q);
    }
  }

  /** The sum rule: under `'sum'`, a strictly smaller rank sum at the level
      being compared comes first. */
  lemma {:induction false} SumRule(c: Criteria, g: set<Routine>, level: int, r: Routine, q: Routine)
    requires g <= c.rank.Keys && level < c.last
    requires r in g && q in g && c.sum(r, level) < c.sum(q, level)
    ensures ListedBefore(PlaceTiesOrder(c, g, level, true), r, q)
    decreases |g|
  {
    var tie := c.SumTie(g, level);
    assert q !in tie by {
      assert c.Sums(g, level)[r] < c.Sums(g, level)[q];
    }
    if r in tie {
      LeadersFirst(c, g, level, true, r, q);
    } else {
      LeadersNonEmpty(c, g, level, true);
      SubsetCard({r, q}, g);
      SubsetCard(g - tie, g);
      SumRule(c, g - tie, level, r, q);
      var rest := PlaceTiesOrder(c, g - tie, level, true);
      assert |{r, q}| == 2;
      assert PlaceTiesOrder(c, g, level, true) == PlaceTiesJoin(c, g, tie, level);
      if |tie| == 1 {
        BeforeRight([TheOne(tie)], rest, r, q);
      } else {
        BeforeRight(PlaceTiesOrder(c, tie, level + 1, false), rest, r, q);
      }
    }
  }

  /** After a lone leader under `'tally'`, the rest of the group is ordered
      by the sum rule at the same level (the flag goes back to `'sum'`). */
  lemma LoneLeaderThenSums(c: Criteria, g: set<Routine>, level: int, w: Routine, r: Routine, q: Routine)
    requires g <= c.rank.Keys && level < c.last && c.CountTie(g, level) == {w}
    requires r in g - {w} && q in g - {w} && c.sum(r, level) < c.sum(q, level)
    ensures ListedBefore(PlaceTiesOrder(c, g, level, false), r, q)
  {
    SubsetCard({w, r}, g);
    SubsetCard(g - {w}, g);
    SumRule(c, g - {w}, level, r, q);
    assert TheOne({w}) == w;
    assert PlaceTiesOrder(c, g, level, false) == [w] + PlaceTiesOrder(c, g - {w}, level, true);
    BeforeRight([w], PlaceTiesOrder(c, g - {w}, level, true), r, q);
  }

  /** Two or more leaders are settled one level down under `'tally'`, and
      the order found there stands. */
  lemma TiedLeadersKeepOrder(c: Criteria, g: set<Routine>, level: int, bySum: bool, r: Routine, q: Routine)
    requires g <= c.rank.Keys && level < c.last && |Leaders(c, g, level, bySum)| >= 2
    requires ListedBefore(PlaceTiesOrder(c, Leaders(c, g, level, bySum), level + 1, false), r, q)
    ensures ListedBefore(PlaceTiesOrder(c, g, level, bySum), r, q)
  {
    var tie := Leaders(c, g, level, bySum);
    LeadersNonEmpty(c, g, level, bySum);
    SubsetCard(tie, g);
    assert PlaceTiesOrder(c, g, level, bySum) == PlaceTiesJoin(c, g, tie, level);
    BeforeLeft(PlaceTiesOrder(c, tie, level + 1, false), PlaceTiesOrder(c, g - tie, level, true), r, q);
  }

  /** Once `count` reaches the number of routines, the head judge decides. */
  lemma FallbackOrder(c: Criteria, g: set<Routine>, level: int, bySum: bool, r: Routine, q: Routine)
    requires g <= c.rank.Keys && level >= c.last
    requires r in g && q in g && c.rank[r] < c.rank[q]
    ensures ListedBefore(PlaceTiesOrder(c, g, level, bySum), r, q)
  {
    SubsetCard({r, q}, g);
    assert |{r, q}| == 2;
    assert PlaceTiesOrder(c, g, level, bySum) == ByRank(g, c.rank);
    ByRankOrder(g, c.rank, r, q);
  }
}
