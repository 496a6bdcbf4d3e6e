/** The tie-breaks of the class-based variant (`__ties`, `__down` and
    `__chiefjudgetie` in Relative_Placement.py), stated over what they consult:
    per level, each routine's tally and rank sum, and the head judge's ranks. */
module Tiebreak {
  import opened ScoreTable
  import opened Placement

  /** What a tie-break looks at: the last level it may consult (the number of
      routines), the tally and the rank sum of a routine at a level, and the
      head judge's rank of each routine. */
  datatype Criteria = Criteria(
    last: nat,
    count: (Routine, int) -> int,
    sum: (Routine, int) -> int,
    rank: map<Routine, int>)
  {
    /** The fallback keys a dict by the head judge's ranks, so each routine
        must have its own. */
    ghost predicate Valid()
    {
      DistinctRanks(rank.Keys, rank)
    }

    ghost function Sums(g: set<Routine>, place: int): map<Routine, int>
    {
      map r | r in g :: sum(r, place)
    }

    ghost function Counts(g: set<Routine>, place: int): map<Routine, int>
    {
      map r | r in g :: count(r, place)
    }

    /** The routines of `g` tied on the smallest rank sum at `place`. */
    ghost function SumTie(g: set<Routine>, place: int): set<Routine>
    {
      MinGroup(g, Sums(g, place))
    }

    /** The routines of `g` tied on the largest tally at `place`. */
    ghost function CountTie(g: set<Routine>, place: int): set<Routine>
    {
      MaxGroup(g, Counts(g, place))
    }
  }

  /** The measure of the tie-break recursion: the levels still to consult. */
  function LevelsLeft(c: Criteria, place: int): nat
  {
    if place <= c.last then c.last + 1 - place else 0
  }

  // ---------------------------------------------------------------------------
  // The places the tie-breaks hand out.

  /** `__ties`: the sum phase. Beyond the last level the head judge decides;
      a group of at most one routine is placed at once. */
  ghost function TiesFinal(c: Criteria, g: set<Routine>, place: int, k: int): map<Routine, int>
    requires g <= c.rank.Keys
    decreases LevelsLeft(c, place), |g|, 2
  {
    if place > c.last then HeadOrder(g, c.rank, k)
    else if |g| <= 1 then map r | r in g :: k
    else TiesSplit(c, g, place, k)
  }

  /** One round of `__ties`: the routines with the smallest rank sum at
      `place` come first. */
  ghost function TiesSplit(c: Criteria, g: set<Routine>, place: int, k: int): map<Routine, int>
    requires g <= c.rank.Keys && place <= c.last && |g| >= 2
    decreases LevelsLeft(c, place), |g|, 1
  {
    MinGroupNonEmpty(g, c.Sums(g, place));
    TiesJoin(c, g, c.SumTie(g, place), place, k)
  }

  /** The sub-group `tie` placed first, going down a level when it holds two
      or more routines; the rest of the group stays in the sum phase at this
      level. */
  ghost function TiesJoin(c: Criteria, g: set<Routine>, tie: set<Routine>, place: int, k: int): map<Routine, int>
    requires g <= c.rank.Keys && place <= c.last && tie <= g && tie != {}
    decreases LevelsLeft(c, place), |g|, 0
  {
    SubsetCard(g - tie, g);
    if |tie| >= 2 then DownFinal(c, tie, place + 1, k) + TiesFinal(c, g - tie, place, k + |tie|)
    else (map r | r in tie :: k) + TiesFinal(c, g - tie, place, k + 1)
  }

  /** `__down`: the count phase. */
  ghost function DownFinal(c: Criteria, g: set<Routine>, place: int, k: int): map<Routine, int>
    requires g <= c.rank.Keys
    decreases LevelsLeft(c, place), |g|, 2
  {
    if place > c.last then HeadOrder(g, c.rank, k)
    else if |g| <= 1 then map r | r in g :: k
    else DownSplit(c, g, place, k)
  }

  /** One round of `__down`: the routines with the largest tally at `place`
      come first. */
  ghost function DownSplit(c: Criteria, g: set<Routine>, place: int, k: int): map<Routine, int>
    requires g <= c.rank.Keys && place <= c.last && |g| >= 2
    decreases LevelsLeft(c, place), |g|, 1
  {
    MaxGroupNonEmpty(g, c.Counts(g, place));
    DownJoin(c, g, c.CountTie(g, place), place, k)
  }

  /** The sub-group `tie` placed first, going down a level when it holds two
      or more routines, after which the rest is compared on sums at this
      level; after a lone winner the rest stays in the count phase. */
  ghost function DownJoin(c: Criteria, g: set<Routine>, tie: set<Routine>, place: int, k: int): map<Routine, int>
    requires g <= c.rank.Keys && place <= c.last && tie <= g && tie != {}
    decreases LevelsLeft(c, place), |g|, 0
  {
    SubsetCard(g - tie, g);
    if |tie| >= 2 then DownFinal(c, tie, place + 1, k) + TiesFinal(c, g - tie, place, k + |tie|)
    else (map r | r in tie :: k) + DownFinal(c, g - tie, place, k + 1)
  }

  // ---------------------------------------------------------------------------
  // Every phase hands its group exactly the block of places it owns.

  /** A tied sub-group placed first and the rest after it. */
  lemma SplitPlacement(a: map<Routine, int>, tie: set<Routine>, b: map<Routine, int>, g: set<Routine>, k: int)
    requires tie <= g
    requires IsPlacement(a, tie, k)
    requires IsPlacement(b, g - tie, k + |tie|)
    ensures IsPlacement(a + b, g, k)
  {
    assert g == tie + (g - tie);
    PlacementUnion(a, tie, b, g - tie, k);
  }

  lemma {:induction false} TiesPlacement(c: Criteria, g: set<Routine>, place: int, k: int)
    requires c.Valid() && g <= c.rank.Keys
    ensures IsPlacement(TiesFinal(c, g, place, k), g, k)
    decreases LevelsLeft(c, place), |g|, 2
  {
    if place > c.last {
      HeadOrderIsPlacement(g, c.rank, k);
    } else if |g| <= 1 {
      SinglePlacement(g, k);
    } else {
      MinGroupNonEmpty(g, c.Sums(g, place));
      TiesJoinPlacement(c, g, c.SumTie(g, place), place, k);
    }
  }

  lemma {:induction false} TiesJoinPlacement(c: Criteria, g: set<Routine>, tie: set<Routine>, place: int, k: int)
    requires c.Valid() && g <= c.rank.Keys && place <= c.last && tie <= g && tie != {}
    ensures IsPlacement(TiesJoin(c, g, tie, place, k), g, k)
    decreases LevelsLeft(c, place), |g|, 1
  {
    if |tie| >= 2 {
      TiesTiedPlacement(c, g, tie, place, k);
    } else {
      TiesLonePlacement(c, g, tie, place, k);
    }
  }

  lemma {:induction false} TiesTiedPlacement(c: Criteria, g: set<Routine>, tie: set<Routine>, place: int, k: int)
    requires c.Valid() && g <= c.rank.Keys && place <= c.last && tie <= g && |tie| >= 2
    ensures IsPlacement(TiesJoin(c, g, tie, place, k), g, k)
    decreases LevelsLeft(c, place), |g|, 0
  {
    DifferenceCard(g, tie);
    DownPlacement(c, tie, place + 1, k);
    TiesPlacement(c, g - tie, place, k + |tie|);
    SplitPlacement(DownFinal(c, tie, place + 1, k), tie, TiesFinal(c, g - tie, place, k + |tie|), g, k);
  }

  lemma {:induction false} TiesLonePlacement(c: Criteria, g: set<Routine>, tie: set<Routine>, place: int, k: int)
    requires c.Valid() && g <= c.rank.Keys && place <= c.last && tie <= g && |tie| == 1
    ensures IsPlacement(TiesJoin(c, g, tie, place, k), g, k)
    decreases LevelsLeft(c, place), |g|, 0
  {
    DifferenceCard(g, tie);
    SinglePlacement(tie, k);
    TiesPlacement(c, g - tie, place, k + 1);
    SplitPlacement(map r | r in tie :: k, tie, TiesFinal(c, g - tie, place, k + 1), g, k);
  }

  lemma {:induction false} DownPlacement(c: Criteria, g: set<Routine>, place: int, k: int)
    requires c.Valid() && g <= c.rank.Keys
    ensures IsPlacement(DownFinal(c, g, place, k), g, k)
    decreases LevelsLeft(c, place), |g|, 2
  {
    if place > c.last {
      HeadOrderIsPlacement(g, c.rank, k);
    } else if |g| <= 1 {
      SinglePlacement(g, k);
    } else {
      MaxGroupNonEmpty(g, c.Counts(g, place));
      DownJoinPlacement(c, g, c.CountTie(g, place), place, k);
    }
  }

  lemma {:induction false} DownJoinPlacement(c: Criteria, g: set<Routine>, tie: set<Routine>, place: int, k: int)
    requires c.Valid() && g <= c.rank.Keys && place <= c.last && tie <= g && tie != {}
    ensures IsPlacement(DownJoin(c, g, tie, place, k), g, k)
    decreases LevelsLeft(c, place), |g|, 1
  {
    if |tie| >= 2 {
      DownTiedPlacement(c, g, tie, place, k);
    } else {
      DownLonePlacement(c, g, tie, place, k);
    }
  }

  lemma {:induction false} DownTiedPlacement(c: Criteria, g: set<Routine>, tie: set<Routine>, place: int, k: int)
    requires c.Valid() && g <= c.rank.Keys && place <= c.last && tie <= g && |tie| >= 2
    ensures IsPlacement(DownJoin(c, g, tie, place, k), g, k)
    decreases LevelsLeft(c, place), |g|, 0
  {
    DifferenceCard(g, tie);
    DownPlacement(c, tie, place + 1, k);
    TiesPlacement(c, g - tie, place, k + |tie|);
    SplitPlacement(DownFinal(c, tie, place + 1, k), tie, TiesFinal(c, g - tie, place, k + |tie|), g, k);
  }

  lemma {:induction false} DownLonePlacement(c: Criteria, g: set<Routine>, tie: set<Routine>, place: int, k: int)
    requires c.Valid() && g <= c.rank.Keys && place <= c.last && tie <= g && |tie| == 1
    ensures IsPlacement(DownJoin(c, g, tie, place, k), g, k)
    decreases LevelsLeft(c, place), |g|, 0
  {
    DifferenceCard(g, tie);
    SinglePlacement(tie, k);
    DownPlacement(c, g - tie, place, k + 1);
    SplitPlacement(map r | r in tie :: k, tie, DownFinal(c, g - tie, place, k + 1), g, k);
  }

  // ---------------------------------------------------------------------------
  // The order the tie-breaks produce.

  /** `m` places both routines, and `r` better (lower-numbered) than `q`. */
  ghost predicate PlacedBefore(m: map<Routine, int>, r: Routine, q: Routine)
  {
    r in m && q in m && m[r] < m[q]
  }

  /** Whoever is in the sub-group placed first beats whoever is placed after it. */
  lemma SplitFirst(a: map<Routine, int>, tie: set<Routine>, b: map<Routine, int>, g: set<Routine>, k: int,
                   r: Routine, q: Routine)
    requires tie <= g
    requires IsPlacement(a, tie, k)
    requires IsPlacement(b, g - tie, k + |tie|)
    requires r in tie && q in g - tie
    ensures PlacedBefore(a + b, r, q)
  {
  }

  /** The sub-group placed after another keeps its own order. */
  lemma SplitRest(a: map<Routine, int>, tie: set<Routine>, b: map<Routine, int>, g: set<Routine>, k: int,
                  r: Routine, q: Routine)
    requires tie <= g
    requires IsPlacement(a, tie, k)
    requires IsPlacement(b, g - tie, k + |tie|)
    requires PlacedBefore(b, r, q)
    ensures PlacedBefore(a + b, r, q)
  {
  }

  /** The sub-group placed first keeps its own order. */
  lemma SplitKeep(a: map<Routine, int>, tie: set<Routine>, b: map<Routine, int>, g: set<Routine>, k: int,
                  r: Routine, q: Routine)
    requires tie <= g
    requires IsPlacement(a, tie, k)
    requires IsPlacement(b, g - tie, k + |tie|)
    requires r in tie && q in tie && PlacedBefore(a, r, q)
    ensures PlacedBefore(a + b, r, q)
  {
  }

  /** The sum rule: within the sum phase, a strictly smaller rank sum at the
      level being compared gives a strictly better place. */
  lemma {:induction false} TiesOrder(c: Criteria, g: set<Routine>, place: int, k: int, r: Routine, q: Routine)
    requires c.Valid() && g <= c.rank.Keys && place <= c.last
    requires r in g && q in g && c.sum(r, place) < c.sum(q, place)
    ensures PlacedBefore(TiesFinal(c, g, place, k), r, q)
    decreases |g|, 1
  {
    SubsetCard({r, q}, g);
    MinGroupNonEmpty(g, c.Sums(g, place));
    var tie := c.SumTie(g, place);
    assert q !in tie;
    TiesJoinOrder(c, g, tie, place, k, r, q);
  }

  lemma {:induction false} TiesJoinOrder(c: Criteria, g: set<Routine>, tie: set<Routine>, place: int, k: int,
                                         r: Routine, q: Routine)
    requires c.Valid() && g <= c.rank.Keys && place <= c.last && tie <= g && tie != {}
    requires r in g && q in g - tie && c.sum(r, place) < c.sum(q, place)
    ensures PlacedBefore(TiesJoin(c, g, tie, place, k), r, q)
    decreases |g|, 0
  {
    DifferenceCard(g, tie);
    if |tie| >= 2 {
      DownPlacement(c, tie, place + 1, k);
      TiesPlacement(c, g - tie, place, k + |tie|);
      if r in tie {
        SplitFirst(DownFinal(c, tie, place + 1, k), tie, TiesFinal(c, g - tie, place, k + |tie|), g, k, r, q);
      } else {
        TiesOrder(c, g - tie, place, k + |tie|, r, q);
        SplitRest(DownFinal(c, tie, place + 1, k), tie, TiesFinal(c, g - tie, place, k + |tie|), g, k, r, q);
      }
    } else {
      SinglePlacement(tie, k);
      TiesPlacement(c, g - tie, place, k + 1);
      if r in tie {
        SplitFirst(map x | x in tie :: k, tie, TiesFinal(c, g - tie, place, k + 1), g, k, r, q);
      } else {
        TiesOrder(c, g - tie, place, k + 1, r, q);
        SplitRest(map x | x in tie :: k, tie, TiesFinal(c, g - tie, place, k + 1), g, k, r, q);
      }
    }
  }

  /** A tie on the smallest rank sum is settled by the count phase one level
      down, and the order found there stands. */
  lemma SumTieKeepsOrder(c: Criteria, g: set<Routine>, place: int, k: int, r: Routine, q: Routine)
    requires c.Valid() && g <= c.rank.Keys && place <= c.last
    requires r in c.SumTie(g, place) && q in c.SumTie(g, place)
    requires PlacedBefore(DownFinal(c, c.SumTie(g, place), place + 1, k), r, q)
    ensures PlacedBefore(TiesFinal(c, g, place, k), r, q)
  {
    SubsetCard({r, q}, g);
    TiedJoinKeepsOrder(c, g, c.SumTie(g, place), place, k, r, q);
  }

  lemma TiedJoinKeepsOrder(c: Criteria, g: set<Routine>, tie: set<Routine>, place: int, k: int, r: Routine, q: Routine)
    requires c.Valid() && g <= c.rank.Keys && place <= c.last && tie <= g
    requires r in tie && q in tie && PlacedBefore(DownFinal(c, tie, place + 1, k), r, q)
    ensures PlacedBefore(TiesJoin(c, g, tie, place, k), r, q)
  {
    SubsetCard({r, q}, tie);
    TiesPlacement(c, g - tie, place, k + |tie|);
    KeepLeft(DownFinal(c, tie, place + 1, k), TiesFinal(c, g - tie, place, k + |tie|), r, q);
  }

  /** An order among routines the right-hand map does not place survives the merge. */
  lemma KeepLeft(a: map<Routine, int>, b: map<Routine, int>, r: Routine, q: Routine)
    requires PlacedBefore(a, r, q) && r !in b && q !in b
    ensures PlacedBefore(a + b, r, q)
  {
  }

  /** The count rule: within the count phase, the routines with the largest
      tally at the level being compared are placed before all the others. */
  lemma DownLeadersFirst(c: Criteria, g: set<Routine>, place: int, k: int, r: Routine, q: Routine)
    requires c.Valid() && g <= c.rank.Keys && place <= c.last
    requires r in c.CountTie(g, place) && q in g - c.CountTie(g, place)
    ensures PlacedBefore(DownFinal(c, g, place, k), r, q)
  {
    SubsetCard({r, q}, g);
    DownJoinLeadersFirst(c, g, c.CountTie(g, place), place, k, r, q);
  }

  lemma DownJoinLeadersFirst(c: Criteria, g: set<Routine>, tie: set<Routine>, place: int, k: int,
                             r: Routine, q: Routine)
    requires c.Valid() && g <= c.rank.Keys && place <= c.last && tie <= g
    requires r in tie && q in g - tie
    ensures PlacedBefore(DownJoin(c, g, tie, place, k), r, q)
  {
    DifferenceCard(g, tie);
    if |tie| >= 2 {
      DownPlacement(c, tie, place + 1, k);
      TiesPlacement(c, g - tie, place, k + |tie|);
      SplitFirst(DownFinal(c, tie, place + 1, k), tie, TiesFinal(c, g - tie, place, k + |tie|), g, k, r, q);
    } else {
      SinglePlacement(tie, k);
      DownPlacement(c, g - tie, place, k + 1);
      SplitFirst(map x | x in tie :: k, tie, DownFinal(c, g - tie, place, k + 1), g, k, r, q);
    }
  }

  /** The head-judge ordering law: once every level has been consulted, a
      better head-judge rank gets a better place, in either phase. */
  lemma FallbackOrder(c: Criteria, g: set<Routine>, place: int, k: int, r: Routine, q: Routine)
    requires g <= c.rank.Keys && place > c.last
    requires r in g && q in g && c.rank[r] < c.rank[q]
    ensures PlacedBefore(TiesFinal(c, g, place, k), r, q)
    ensures PlacedBefore(DownFinal(c, g, place, k), r, q)
  {
    HeadOrderRespectsRank(g, c.rank, k, r, q);
  }
}
