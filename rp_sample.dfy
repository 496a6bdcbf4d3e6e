/** The six-routine, five-judge table that ships with Relative_Placement.py,
    ranked from its tallies and sums: the order the skating system gives it
    follows from the ordering lemmas alone. */
module RelativePlacementSample {
  import opened ScoreTable
  import opened Tally
  import opened Placement
  import opened Tiebreak
  import opened RelativePlacementSpec
  import opened Ranking

  /** The sample table, judge by judge (judge `j` of the source is position `j - 1`). */
  function SampleTable(): Table
  {
    map[1 := [1, 1, 3, 2, 3],
        2 := [6, 5, 4, 1, 2],
        3 := [2, 4, 1, 5, 5],
        4 := [4, 2, 5, 6, 6],
        5 := [5, 6, 2, 3, 4],
        6 := [3, 3, 6, 4, 1]]
  }

  /** All five judges count, a majority of three, the fifth judge heading the panel. */
  function Sample(): Setup
  {
    Setup(SampleTable(), 4, 3, true)
  }

  /** The module's own call names judge 7, who is on no row: leaving that
      judge out gives every routine the tallies and sums of `Sample()`. */
  lemma ModuleCallTallies(r: Routine, p: int)
    requires r in SampleTable()
    ensures Setup(SampleTable(), 6, 3, false).CountAt(r, p) == Sample().CountAt(r, p)
    ensures Setup(SampleTable(), 6, 3, false).SumAt(r, p) == Sample().SumAt(r, p)
  {
    AbsentJudgeExcludesNobody(SampleTable()[r], p, 6);
  }

  /** The tally of a routine of the sample, read off its row. */
  lemma SampleCount(r: Routine, p: int)
    requires r in SampleTable()
    ensures Sample().CountAt(r, p) == CountPrefix(SampleTable()[r], 5, p, None)
  {
    CountIsLoopTally(SampleTable()[r], p, None);
  }

  /** The sample has six routines. */
  lemma SampleSize()
    ensures SampleTable().Keys == {1, 2, 3, 4, 5, 6} && Sample().N() == 6
  {
    assert |{1, 2, 3, 4, 5, 6}| == 6;
  }

  /** Every row of the sample has five judges, all of them counted. */
  lemma SampleFinishes()
    ensures Sample().Finishes() && Sample().HeadJudgeOnPanel()
  {
    var s := Sample();
    forall r | r in s.places
      ensures |s.places[r]| == 5
    {
    }
  }

  /** The fifth judge's ranks, routine by routine. */
  lemma SampleHeadRanks()
    ensures Sample().HeadRanks() == map[1 := 3, 2 := 2, 3 := 5, 4 := 6, 5 := 4, 6 := 1]
  {
  }

  /** Six routines with six different ranks are pairwise apart. */
  lemma SixApart(rank: map<Routine, int>)
    requires rank == map[1 := 3, 2 := 2, 3 := 5, 4 := 6, 5 := 4, 6 := 1]
    ensures DistinctRanks(rank.Keys, rank)
  {
  }

  lemma SampleValid()
    ensures Sample().Valid()
  {
    SampleFinishes();
    SampleHeadRanks();
    SixApart(Sample().HeadRanks());
  }

  /** The tallies of the six routines at level 1. */
  lemma SampleTalliesOne()
    ensures Sample().CountAt(1, 1) == 2 && Sample().CountAt(2, 1) == 1 && Sample().CountAt(3, 1) == 1 && Sample().CountAt(4, 1) == 0 && Sample().CountAt(5, 1) == 0 && Sample().CountAt(6, 1) == 1
  {
    SampleCount(1, 1); SampleCount(2, 1); SampleCount(3, 1); SampleCount(4, 1); SampleCount(5, 1); SampleCount(6, 1);
  }

  /** The tallies of the six routines at level 2. */
  lemma SampleTalliesTwo()
    ensures Sample().CountAt(1, 2) == 3 && Sample().CountAt(2, 2) == 2 && Sample().CountAt(3, 2) == 2 && Sample().CountAt(4, 2) == 1 && Sample().CountAt(5, 2) == 1 && Sample().CountAt(6, 2) == 1
  {
    SampleCount(1, 2); SampleCount(2, 2); SampleCount(3, 2); SampleCount(4, 2); SampleCount(5, 2); SampleCount(6, 2);
  }

  /** The tallies of the six routines at level 3. */
  lemma SampleTalliesThree()
    ensures Sample().CountAt(1, 3) == 5 && Sample().CountAt(2, 3) == 2 && Sample().CountAt(3, 3) == 2 && Sample().CountAt(4, 3) == 1 && Sample().CountAt(5, 3) == 2 && Sample().CountAt(6, 3) == 3
  {
    SampleCount(1, 3); SampleCount(2, 3); SampleCount(3, 3); SampleCount(4, 3); SampleCount(5, 3); SampleCount(6, 3);
  }

  /** The tallies of the six routines at level 4. */
  lemma SampleTalliesFour()
    ensures Sample().CountAt(1, 4) == 5 && Sample().CountAt(2, 4) == 3 && Sample().CountAt(3, 4) == 3 && Sample().CountAt(4, 4) == 2 && Sample().CountAt(5, 4) == 3 && Sample().CountAt(6, 4) == 4
  {
    SampleCount(1, 4); SampleCount(2, 4); SampleCount(3, 4); SampleCount(4, 4); SampleCount(5, 4); SampleCount(6, 4);
  }

  /** The tallies of the six routines at level 5. */
  lemma SampleTalliesFive()
    ensures Sample().CountAt(1, 5) == 5 && Sample().CountAt(2, 5) == 4 && Sample().CountAt(3, 5) == 5 && Sample().CountAt(4, 5) == 3 && Sample().CountAt(5, 5) == 4 && Sample().CountAt(6, 5) == 4
  {
    SampleCount(1, 5); SampleCount(2, 5); SampleCount(3, 5); SampleCount(4, 5); SampleCount(5, 5); SampleCount(6, 5);
  }

  /** Before level 1, routines {1, 2, 3, 4, 5, 6} are unplaced; {} first reach the majority there. */
  lemma SampleLevelOne()
    ensures PendingAt(Sample(), 1) == {1, 2, 3, 4, 5, 6} && GroupAt(Sample(), 1) == {}
  {
    SampleTalliesOne();
  }

  /** Before level 2, routines {1, 2, 3, 4, 5, 6} are unplaced; {1} first reach the majority there. */
  lemma SampleLevelTwo()
    ensures PendingAt(Sample(), 2) == {1, 2, 3, 4, 5, 6} && GroupAt(Sample(), 2) == {1}
  {
    SampleTalliesOne(); SampleTalliesTwo();
  }

  /** Before level 3, routines {2, 3, 4, 5, 6} are unplaced; {6} first reach the majority there. */
  lemma SampleLevelThree()
    ensures PendingAt(Sample(), 3) == {2, 3, 4, 5, 6} && GroupAt(Sample(), 3) == {6}
  {
    SampleTalliesTwo(); SampleTalliesThree();
  }

  /** Before level 4, routines {2, 3, 4, 5} are unplaced; {2, 3, 5} first reach the majority there. */
  lemma SampleLevelFour()
    ensures PendingAt(Sample(), 4) == {2, 3, 4, 5} && GroupAt(Sample(), 4) == {2, 3, 5}
  {
    SampleTalliesThree(); SampleTalliesFour();
  }

  /** Before level 5, routines {4} are unplaced; {4} first reach the majority there. */
  lemma SampleLevelFive()
    ensures PendingAt(Sample(), 5) == {4} && GroupAt(Sample(), 5) == {4}
  {
    SampleTalliesFour(); SampleTalliesFive();
  }

  /** Before level 6, routines {} are unplaced; {} first reach the majority there. */
  lemma SampleLevelSix()
    ensures PendingAt(Sample(), 6) == {} && GroupAt(Sample(), 6) == {}
  {
    SampleTalliesFive();
  }

  /** The rank sum of a routine of the sample, read off its row. */
  lemma SampleSum(r: Routine, p: int)
    requires r in SampleTable()
    ensures Sample().Crit().sum(r, p) == SumPrefix(SampleTable()[r], 5, p, None)
  {
  }

  /** Named sums of three routines. */
  lemma SumsOfThree(c: Criteria, a: Routine, b: Routine, d: Routine, p: int)
    ensures c.Sums({a, b, d}, p) == map[a := c.sum(a, p), b := c.sum(b, p), d := c.sum(d, p)]
  {
  }

  /** Named tallies of two routines. */
  lemma CountsOfTwo(c: Criteria, a: Routine, b: Routine, p: int)
    ensures c.Counts({a, b}, p) == map[a := c.count(a, p), b := c.count(b, p)]
  {
  }

  /** The rank sums at level 4 of the group 2, 3, 5. */
  lemma SampleSums()
    ensures Sample().Crit().Sums({2, 3, 5}, 4) == map[2 := 7, 3 := 7, 5 := 9]
  {
    SumsOfThree(Sample().Crit(), 2, 3, 5, 4);
    SampleSumsFour();
  }

  /** The rank sums at level 4 of routines 2, 3 and 5, one by one. */
  lemma SampleSumsFour()
    ensures Sample().Crit().sum(2, 4) == 7 && Sample().Crit().sum(3, 4) == 7 && Sample().Crit().sum(5, 4) == 9
  {
    SampleSum(2, 4); SampleSum(3, 4); SampleSum(5, 4);
  }

  /** The tallies at level 5 of routines 2 and 3. */
  lemma SampleCounts()
    ensures Sample().Crit().Counts({2, 3}, 5) == map[2 := 4, 3 := 5]
  {
    CountsOfTwo(Sample().Crit(), 2, 3, 5);
    SampleTalliesFive();
  }

  /** Of three values, two equal and below the third, the smallest are the two. */
  lemma MinOfThree(a: Routine, b: Routine, d: Routine, v: map<Routine, int>)
    requires v == map[a := 7, b := 7, d := 9] && a != d && b != d
    ensures MinGroup({a, b, d}, v) == {a, b}
  {
    assert d !in MinGroup({a, b, d}, v) by { assert v[d] > v[a]; }
  }

  /** Of two different values, the larger belongs to the second. */
  lemma MaxOfTwo(a: Routine, b: Routine, v: map<Routine, int>)
    requires v == map[a := 4, b := 5] && a != b
    ensures MaxGroup({a, b}, v) == {b}
  {
    assert a !in MaxGroup({a, b}, v) by { assert v[a] < v[b]; }
  }

  /** Routines 2 and 3 tie on the smallest sum at level 4. */
  lemma SampleSumTie()
    ensures Sample().Crit().SumTie(GroupAt(Sample(), 4), 4) == {2, 3}
  {
    SampleLevelFour();
    SampleSums();
    MinOfThree(2, 3, 5, Sample().Crit().Sums({2, 3, 5}, 4));
  }

  /** At level 5, routine 3 alone has the larger tally. */
  lemma SampleCountTie()
    ensures Sample().Crit().CountTie({2, 3}, 5) == {3}
  {
    SampleCounts();
    MaxOfTwo(2, 3, Sample().Crit().Counts({2, 3}, 5));
  }

  /** Routine 1 alone reaches the majority at level 2, before routine 6. */
  lemma SampleOneBeforeSix()
    ensures Sample().Finishes() && PlacedBefore(FinalPlaces(Sample()), 1, 6)
  {
    SampleValid();
    SampleCount(1, 2); SampleCount(6, 2);
    MajorityOrder(Sample(), 1, 6, 2);
  }

  /** Routine 6 reaches the majority at level 3, before routine 3. */
  lemma SampleSixBeforeThree()
    ensures Sample().Finishes() && PlacedBefore(FinalPlaces(Sample()), 6, 3)
  {
    SampleValid();
    SampleCount(6, 3); SampleCount(3, 3);
    MajorityOrder(Sample(), 6, 3, 3);
  }

  /** Routines 2 and 3 both first reach the majority at level 4. */
  lemma SampleTwoThreeReachFour()
    ensures Sample().NotReachedBefore(2, 4) && Sample().CountAt(2, 4) >= 3
    ensures Sample().NotReachedBefore(3, 4) && Sample().CountAt(3, 4) >= 3
  {
    SampleCount(3, 3); SampleCount(2, 3); SampleCount(3, 4); SampleCount(2, 4);
  }

  /** Routines 3 and 2 tie on sums at level 4; 3 wins on the tally at level 5. */
  lemma SampleThreeBeforeTwo()
    ensures Sample().Finishes() && PlacedBefore(FinalPlaces(Sample()), 3, 2)
  {
    SampleValid();
    SampleSize();
    SampleTwoThreeReachFour();
    SampleSumTie();
    SampleCountTie();
    CountTieOrder(Sample(), 3, 2, 4, 5, {2, 3});
  }

  /** The count rule, with the tie and the next level given by name. */
  lemma CountTieOrder(s: Setup, r: Routine, q: Routine, p: int, next: int, tie: set<Routine>)
    requires s.Valid() && r in s.places && q in s.places && 1 <= p && next == p + 1 && next <= s.N()
    requires s.NotReachedBefore(r, p) && s.CountAt(r, p) >= s.majority
    requires s.NotReachedBefore(q, p) && s.CountAt(q, p) >= s.majority
    requires s.Crit().SumTie(GroupAt(s, p), p) == tie && r in tie && q in tie
    requires r in s.Crit().CountTie(tie, next) && q !in s.Crit().CountTie(tie, next)
    ensures PlacedBefore(FinalPlaces(s), r, q)
  {
    TieCountOrder(s, r, q, p);
  }

  /** Routine 2 has the smaller sum at level 4 than routine 5. */
  lemma SampleTwoBeforeFive()
    ensures Sample().Finishes() && PlacedBefore(FinalPlaces(Sample()), 2, 5)
  {
    SampleValid();
    SampleSize();
    SampleLevelFour();
    SampleSumsFour();
    GroupSumOrder(Sample(), 2, 5, 4);
  }

  /** The sum rule for two members of one level's group. */
  lemma GroupSumOrder(s: Setup, r: Routine, q: Routine, p: int)
    requires s.Valid() && 1 <= p <= s.N() && r in GroupAt(s, p) && q in GroupAt(s, p)
    requires s.Crit().sum(r, p) < s.Crit().sum(q, p)
    ensures PlacedBefore(FinalPlaces(s), r, q)
  {
    SumOrder(s, r, q, p);
  }

  /** Routine 5 reaches the majority at level 4, before routine 4. */
  lemma SampleFiveBeforeFour()
    ensures Sample().Finishes() && PlacedBefore(FinalPlaces(Sample()), 5, 4)
  {
    SampleValid();
    SampleCount(5, 4); SampleCount(4, 4);
    MajorityOrder(Sample(), 5, 4, 4);
  }

  /** A placement of the six routines onto 1 .. 6, strictly ordered along
      1, 6, 3, 2, 5, 4: each place is pinned. */
  lemma ChainPins(f: map<Routine, int>, keys: set<Routine>)
    requires keys == {1, 2, 3, 4, 5, 6} && IsPlacement(f, keys, 1)
    requires PlacedBefore(f, 1, 6) && PlacedBefore(f, 6, 3) && PlacedBefore(f, 3, 2)
    requires PlacedBefore(f, 2, 5) && PlacedBefore(f, 5, 4)
    ensures f == map[1 := 1, 6 := 2, 3 := 3, 2 := 4, 5 := 5, 4 := 6]
  {
    assert |{1, 2, 3, 4, 5, 6}| == 6;
    assert 1 <= f[1] && f[4] < 7;
  }

  /** The sample ranks 1, 6, 3, 2, 5, 4 (the order the source's own table gives). */
  lemma SampleRanking()
    ensures Sample().Finishes()
    ensures FinalPlaces(Sample()) == map[1 := 1, 6 := 2, 3 := 3, 2 := 4, 5 := 5, 4 := 6]
  {
    SampleValid();
    SampleSize();
    SampleOneBeforeSix();
    SampleSixBeforeThree();
    SampleThreeBeforeTwo();
    SampleTwoBeforeFive();
    SampleFiveBeforeFour();
    FinalIsRanking(Sample());
    ChainPins(FinalPlaces(Sample()), Sample().places.Keys);
  }
}
