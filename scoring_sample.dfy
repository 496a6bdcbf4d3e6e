/** The sample table of Relative_Placement.py run through scoring.py's
    `competition` (all judges counted, the fifth heading the panel) and
    through scoring2.py's steps 1 and 2. */
module ScoringSample {
  import opened ScoreTable
  import opened Tally
  import opened Tiebreak
  import opened RelativePlacementSpec
  import opened Ranking
  import opened SlotTable
  import opened ScoringTies
  import opened CompetitionSpec
  import opened RelativePlacementSample
  import Scoring
  import Scoring2

  /** The criteria `place_ties` consults on the sample run to level 6. */
  lemma SampleLast()
    ensures Sample().Crit().last == 6 && Sample().N() == 6
  {
    assert SampleTable().Keys == {1, 2, 3, 4, 5, 6};
  }

  /** A group of one is placed as it is. */
  lemma OrderOfOne(c: Criteria, w: Routine, level: int, bySum: bool)
    requires w in c.rank.Keys
    ensures PlaceTiesOrder(c, {w}, level, bySum) == [w]
  {
    assert |{w}| == 1;
  }

  /** How `place_ties` orders a group shaped like the sample's level 4:
      two routines share the best sum, one of them has the better tally one
      level down, and the third follows alone. */
  lemma OrderOfThree(c: Criteria, a: Routine, b: Routine, d: Routine, level: int, deeper: int)
    requires {a, b, d} <= c.rank.Keys && a != b && a != d && b != d
    requires deeper == level + 1 && deeper < c.last
    requires c.SumTie({a, b, d}, level) == {a, b} && c.CountTie({a, b}, deeper) == {b}
    ensures PlaceTiesOrder(c, {a, b, d}, level, true) == [b, a, d]
  {
    assert |{a, b, d}| == 3 && |{a, b}| == 2;
    assert {a, b, d} - {a, b} == {d} && {a, b} - {b} == {a};
    OrderOfOne(c, a, deeper, true);
    OrderOfOne(c, d, level, true);
    assert PlaceTiesJoin(c, {a, b}, {b}, deeper) == [b, a];
    assert PlaceTiesOrder(c, {a, b}, deeper, false) == [b, a];
    assert PlaceTiesJoin(c, {a, b, d}, {a, b}, level) == [b, a] + [d];
  }

  /** Level 4's group is placed 3, 2, 5: 2 and 3 share the smallest sum,
      3 has the larger tally one level down, and 5 follows alone. */
  lemma SampleOrderFour()
    ensures GroupOrder(Sample(), 4) == [3, 2, 5]
  {
    SampleLevelFour();
    SampleLast();
    SampleSumTie();
    SampleCountTie();
    assert {2, 3, 5} <= Sample().Crit().rank.Keys;
    OrderOfThree(Sample().Crit(), 2, 3, 5, 4, 5);
  }

  /** A level whose group is known has the order of that group. */
  lemma GroupOrderOf(s: Setup, q: int, g: set<Routine>, xs: seq<Routine>)
    requires GroupAt(s, q) == g && g <= s.Crit().rank.Keys && PlaceTiesOrder(s.Crit(), g, q, true) == xs
    ensures GroupOrder(s, q) == xs
  {
  }

  /** The lone levels of the sample keep their one routine. */
  lemma SampleLoneOrders()
    ensures GroupOrder(Sample(), 2) == [1] && GroupOrder(Sample(), 3) == [6] && GroupOrder(Sample(), 5) == [4]
  {
    var s := Sample();
    SampleLast();
    assert s.Crit().rank.Keys == {1, 2, 3, 4, 5, 6};
    SampleLevelTwo(); SampleLevelThree(); SampleLevelFive();
    OrderOfOne(s.Crit(), 1, 2, true);
    OrderOfOne(s.Crit(), 6, 3, true);
    OrderOfOne(s.Crit(), 4, 5, true);
    GroupOrderOf(s, 2, {1}, [1]);
    GroupOrderOf(s, 3, {6}, [6]);
    GroupOrderOf(s, 5, {4}, [4]);
  }

  /** Levels 1 and 6 of the sample have nothing to place. */
  lemma SampleEmptyOrders()
    ensures GroupOrder(Sample(), 1) == [] && GroupOrder(Sample(), 6) == []
  {
    SampleLevelOne(); SampleLevelSix();
    GroupOrderOf(Sample(), 1, {}, []);
    GroupOrderOf(Sample(), 6, {}, []);
  }

  /** The blocks of six levels are fixed by the six levels' orders. */
  lemma BlocksOfSix(s: Setup, b1: seq<Routine>, b2: seq<Routine>, b3: seq<Routine>,
                    b4: seq<Routine>, b5: seq<Routine>, b6: seq<Routine>)
    requires s.N() == 6
    requires GroupOrder(s, 1) == b1 && GroupOrder(s, 2) == b2 && GroupOrder(s, 3) == b3
    requires GroupOrder(s, 4) == b4 && GroupOrder(s, 5) == b5 && GroupOrder(s, 6) == b6
    ensures Blocks(s) == [[], b1, b2, b3, b4, b5, b6]
  {
  }

  /** Each level's block: nothing at levels 1 and 6, a lone routine at 2, 3 and 5. */
  lemma SampleBlocks()
    ensures Blocks(Sample()) == [[], [], [1], [6], [3, 2, 5], [4], []]
  {
    SampleLast();
    SampleLoneOrders();
    SampleEmptyOrders();
    SampleOrderFour();
    BlocksOfSix(Sample(), [], [1], [6], [3, 2, 5], [4], []);
  }

  /** The blocks laid end to end. */
  lemma SampleFlatten()
    ensures Flatten([[], [], [1], [6], [3, 2, 5], [4], []]) == [1, 6, 3, 2, 5, 4]
  {
    var blocks: seq<seq<Routine>> := [[], [], [1], [6], [3, 2, 5], [4], []];
    assert Flatten(blocks[..1]) == [] by { assert blocks[..1][..0] == []; }
    assert Flatten(blocks[..2]) == [] by { assert blocks[..2][..1] == blocks[..1]; }
    assert Flatten(blocks[..3]) == [1] by { assert blocks[..3][..2] == blocks[..2]; }
    assert Flatten(blocks[..4]) == [1, 6] by { assert blocks[..4][..3] == blocks[..3]; }
    assert Flatten(blocks[..5]) == [1, 6, 3, 2, 5] by { assert blocks[..5][..4] == blocks[..4]; }
    assert Flatten(blocks[..6]) == [1, 6, 3, 2, 5, 4] by { assert blocks[..6][..5] == blocks[..5]; }
    assert blocks[..7] == blocks;
  }

  /** The six routines written into six empty slots. */
  lemma SamplePut()
    ensures Put(EmptySlots(6), 1, [1, 6, 3, 2, 5, 4])
         == map[1 := Some(1), 2 := Some(6), 3 := Some(3), 4 := Some(2), 5 := Some(5), 6 := Some(4)]
  {
    UptoSix();
    assert EmptySlots(6) == map[1 := None, 2 := None, 3 := None, 4 := None, 5 := None, 6 := None];
  }

  /** `competition` of scoring.py places the sample 1, 6, 3, 2, 5, 4 in slots 1 .. 6. */
  lemma SamplePlacements()
    ensures Placements(Sample()) == map[1 := Some(1), 2 := Some(6), 3 := Some(3), 4 := Some(2), 5 := Some(5), 6 := Some(4)]
  {
    SampleLast();
    SampleBlocks();
    SampleFlatten();
    SamplePut();
  }

  /** Every row of the sample has five ranks, so every panel read off a row is the sample's. */
  lemma SamplePanel(r: Routine)
    requires r in SampleTable()
    ensures Setup(SampleTable(), 4, Majority(|SampleTable()[r]|), true) == Sample()
    ensures Scoring2.Panel(SampleTable(), 4, r) == Sample()
  {
  }

  /** Whatever row `competition` reads the panel's size from, scoring.py
      places the sample 1, 6, 3, 2, 5, 4. */
  lemma SampleCompetition(r: Routine)
    requires r in SampleTable()
    ensures Scoring.Expected(SampleTable(), 4, true, r).placements
         == map[1 := Some(1), 2 := Some(6), 3 := Some(3), 4 := Some(2), 5 := Some(5), 6 := Some(4)]
  {
    SamplePanel(r);
    SamplePlacements();
  }

  /** Where each level's block of the sample starts: after the routines
      placed at the levels above. */
  lemma SampleStarts()
    ensures StartAt(Sample(), 2) == 1 && StartAt(Sample(), 3) == 2
    ensures StartAt(Sample(), 4) == 3 && StartAt(Sample(), 5) == 6
  {
    SampleLast();
    SampleStartTwo(); SampleStartThree(); SampleStartFour(); SampleStartFive();
  }

  lemma SampleStartTwo()
    ensures |PendingAt(Sample(), 2)| == 6
  {
    SampleLevelTwo();
    assert |{1, 2, 3, 4, 5, 6}| == 6;
  }

  lemma SampleStartThree()
    ensures |PendingAt(Sample(), 3)| == 5
  {
    SampleLevelThree();
    assert |{2, 3, 4, 5, 6}| == 5;
  }

  lemma SampleStartFour()
    ensures |PendingAt(Sample(), 4)| == 4
  {
    SampleLevelFour();
    assert |{2, 3, 4, 5}| == 4;
  }

  lemma SampleStartFive()
    ensures |PendingAt(Sample(), 5)| == 1
  {
    SampleLevelFive();
  }

  /** A panel of six levels shaped like the sample: lone groups at levels
      2, 3 and 5, a group of three at level 4. Steps 1 and 2 write the lone
      routines into their slots and leave the group's three slots open. */
  lemma PreliminaryOfSix(s: Setup, a: Slots)
    requires s.N() == 6 && Filled(s, a, LoneLevels(s, 6))
    requires StartAt(s, 2) == 1 && StartAt(s, 3) == 2 && StartAt(s, 4) == 3 && StartAt(s, 5) == 6
    requires GroupAt(s, 2) == {1} && GroupAt(s, 3) == {6} && GroupAt(s, 5) == {4} && |GroupAt(s, 4)| == 3
    ensures a.Keys == Upto(6)
    ensures a[1] == Some(1) && a[2] == Some(6) && a[3] == None && a[4] == None && a[5] == None && a[6] == Some(4)
  {
    Scoring2.LoneSlot(s, a, 2, 1);
    Scoring2.LoneSlot(s, a, 3, 6);
    Scoring2.LoneSlot(s, a, 5, 4);
    Scoring2.TiedSlotsOpen(s, a, 4, 0, 3);
    Scoring2.TiedSlotsOpen(s, a, 4, 1, 4);
    Scoring2.TiedSlotsOpen(s, a, 4, 2, 5);
  }

  /** Six slots known one by one. */
  lemma SixSlots(a: Slots)
    requires a.Keys == Upto(6)
    requires a[1] == Some(1) && a[2] == Some(6) && a[3] == None && a[4] == None && a[5] == None && a[6] == Some(4)
    ensures a == map[1 := Some(1), 2 := Some(6), 3 := None, 4 := None, 5 := None, 6 := Some(4)]
  {
    UptoSix();
  }

  lemma UptoSix()
    ensures Upto(6) == {1, 2, 3, 4, 5, 6}
  {
  }

  /** Steps 1 and 2 of scoring2.py leave the sample's slots 1, 2 and 6 to
      routines 1, 6 and 4, and slots 3 .. 5 of the tied group at level 4 open. */
  lemma SamplePreliminary(a: Slots)
    requires Filled(Sample(), a, LoneLevels(Sample(), 6))
    ensures a == map[1 := Some(1), 2 := Some(6), 3 := None, 4 := None, 5 := None, 6 := Some(4)]
  {
    SampleShape();
    PreliminaryOfSix(Sample(), a);
    SixSlots(a);
  }

  /** The sample's levels as steps 1 and 2 see them. */
  lemma SampleShape()
    ensures Sample().N() == 6
    ensures StartAt(Sample(), 2) == 1 && StartAt(Sample(), 3) == 2 && StartAt(Sample(), 4) == 3 && StartAt(Sample(), 5) == 6
    ensures GroupAt(Sample(), 2) == {1} && GroupAt(Sample(), 3) == {6} && GroupAt(Sample(), 5) == {4}
    ensures |GroupAt(Sample(), 4)| == 3
  {
    SampleLast();
    SampleStarts();
    SampleLevelTwo(); SampleLevelThree(); SampleLevelFour(); SampleLevelFive();
    assert |{2, 3, 5}| == 3;
  }

  /** Whatever row scoring2.py reads the panel's size from, its result on
      the sample holds routines 1, 6 and 4 in slots 1, 2 and 6 and leaves
      slots 3 .. 5 open. */
  lemma SampleScoring2(r: Routine, result: Scoring2.Preliminary)
    requires r in SampleTable() && Scoring2.PreliminaryOf(Scoring2.Panel(SampleTable(), 4, r), result)
    ensures result.placements == map[1 := Some(1), 2 := Some(6), 3 := None, 4 := None, 5 := None, 6 := Some(4)]
  {
    SamplePanel(r);
    SampleLast();
    SamplePreliminary(result.placements);
  }
}
