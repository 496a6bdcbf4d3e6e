/** The per-routine tally (how many judges ranked the routine at or better than
    a level) and rank sum, shared by all three ranking variants. */
module Tally {
  import opened ScoreTable

  /** Does judge `j` take part in the count when `excluded` is left out? */
  predicate Counts(j: nat, excluded: Option<nat>)
  {
    excluded != Some(j)
  }

  /** Tally over the first `n` judges of `row`: judges other than `excluded`
      whose rank is at most `place`. */
  function CountPrefix(row: Row, n: nat, place: int, excluded: Option<nat>): nat
    requires n <= |row|
  {
    if n == 0 then 0
    else CountPrefix(row, n - 1, place, excluded)
         + (if row[n - 1] <= place && Counts(n - 1, excluded) then 1 else 0)
  }

  /** Sum of the ranks counted by `CountPrefix`. */
  function SumPrefix(row: Row, n: nat, place: int, excluded: Option<nat>): int
    requires n <= |row|
  {
    if n == 0 then 0
    else SumPrefix(row, n - 1, place, excluded)
         + (if row[n - 1] <= place && Counts(n - 1, excluded) then row[n - 1] else 0)
  }

  /** The tally of `row` at level `place`: the number of counted judges
      ranking the routine at or better than `place`. */
  function Count(row: Row, place: int, excluded: Option<nat>): nat
  {
    |set j: nat | j < |row| && row[j] <= place && Counts(j, excluded)|
  }

  /** The rank sum of `row` at level `place`. */
  function RankSum(row: Row, place: int, excluded: Option<nat>): int
  {
    SumPrefix(row, |row|, place, excluded)
  }

  /** The number of judges whose ranks are counted at all. */
  function CountedJudges(row: Row, excluded: Option<nat>): nat
  {
    |row| - (if excluded.Some? && excluded.value < |row| then 1 else 0)
  }

  /** The largest rank in the row (0 for an empty row). */
  function MaxRank(row: Row): (m: int)
    ensures forall j :: 0 <= j < |row| ==> row[j] <= m
  {
    if |row| == 0 then 0
    else var m := MaxRank(row[..|row| - 1]);
      assert forall j :: 0 <= j < |row| - 1 ==> row[..|row| - 1][j] == row[j];
      if row[|row| - 1] > m then row[|row| - 1] else m
  }

  /** A level at or above every rank of the routines in `ks`. */
  ghost function BoundOver(t: Table, ks: set<Routine>): (b: int)
    requires ks <= t.Keys
    ensures b >= 1
    ensures forall r :: r in ks ==> MaxRank(t[r]) <= b
    decreases ks
  {
    if ks == {} then 1
    else
      NonEmptyHasMember(ks);
      var k :| k in ks;
      var b := BoundOver(t, ks - {k});
      if MaxRank(t[k]) > b then MaxRank(t[k]) else b
  }

  /** A level at or above every rank in the table. */
  ghost function TableBound(t: Table): (b: int)
    ensures b >= 1
    ensures forall r :: r in t ==> MaxRank(t[r]) <= b
  {
    BoundOver(t, t.Keys)
  }

  /** The majority threshold `(numJudges + 1) / 2` of the source. */
  function Majority(numJudges: nat): (m: nat)
    ensures 2 * m >= numJudges && 2 * m <= numJudges + 1
  {
    (numJudges + 1) / 2
  }

  // ---------------------------------------------------------------------------
  // Reference definition: the tally is the size of the set of counted judges.

  /** The counted judges among the first `n` whose rank is at most `place`. */
  ghost function CountedSet(row: Row, n: nat, place: int, excluded: Option<nat>): set<nat>
    requires n <= |row|
  {
    set j: nat | j < n && row[j] <= place && Counts(j, excluded)
  }

  lemma {:induction false} CountIsCardinality(row: Row, n: nat, place: int, excluded: Option<nat>)
    requires n <= |row|
    ensures CountPrefix(row, n, place, excluded) == |CountedSet(row, n, place, excluded)|
  {
    if n > 0 {
      CountIsCardinality(row, n - 1, place, excluded);
      var before := CountedSet(row, n - 1, place, excluded);
      var after := CountedSet(row, n, place, excluded);
      if row[n - 1] <= place && Counts(n - 1, excluded) {
        assert after == before + {n - 1};
      } else {
        assert after == before;
      }
    }
  }

  /** The judge-by-judge accumulation of the source's loop adds up to `Count`. */
  lemma CountIsLoopTally(row: Row, place: int, excluded: Option<nat>)
    ensures Count(row, place, excluded) == CountPrefix(row, |row|, place, excluded)
  {
    CountIsCardinality(row, |row|, place, excluded);
    assert CountedSet(row, |row|, place, excluded)
        == set j: nat | j < |row| && row[j] <= place && Counts(j, excluded);
  }

  // ---------------------------------------------------------------------------
  // Monotonicity and saturation.

  lemma {:induction false} PrefixMonotone(row: Row, n: nat, p: int, q: int, excluded: Option<nat>)
    requires n <= |row| && 0 <= p <= q
    ensures CountPrefix(row, n, p, excluded) <= CountPrefix(row, n, q, excluded)
    ensures SumPrefix(row, n, p, excluded) <= SumPrefix(row, n, q, excluded)
  {
    if n > 0 {
      PrefixMonotone(row, n - 1, p, q, excluded);
    }
  }

  /** Tally and sum never decrease as the level grows. */
  lemma TallyMonotone(row: Row, p: int, q: int, excluded: Option<nat>)
    requires 0 <= p <= q
    ensures Count(row, p, excluded) <= Count(row, q, excluded)
    ensures RankSum(row, p, excluded) <= RankSum(row, q, excluded)
  {
    PrefixMonotone(row, |row|, p, q, excluded);
    CountIsLoopTally(row, p, excluded);
    CountIsLoopTally(row, q, excluded);
  }

  lemma {:induction false} PrefixSaturates(row: Row, n: nat, place: int, excluded: Option<nat>)
    requires n <= |row|
    requires forall j :: 0 <= j < |row| ==> row[j] <= place
    ensures CountPrefix(row, n, place, excluded)
         == n - (if excluded.Some? && excluded.value < n then 1 else 0)
  {
    if n > 0 {
      PrefixSaturates(row, n - 1, place, excluded);
    }
  }

  /** From the largest rank on, every counted judge is in the tally. */
  lemma TallySaturates(row: Row, place: int, excluded: Option<nat>)
    requires MaxRank(row) <= place
    ensures Count(row, place, excluded) == CountedJudges(row, excluded)
  {
    PrefixSaturates(row, |row|, place, excluded);
    CountIsLoopTally(row, place, excluded);
  }

  lemma {:induction false} PrefixAtMostCounted(row: Row, n: nat, place: int, excluded: Option<nat>)
    requires n <= |row|
    ensures CountPrefix(row, n, place, excluded)
         <= n - (if excluded.Some? && excluded.value < n then 1 else 0)
  {
    if n > 0 {
      PrefixAtMostCounted(row, n - 1, place, excluded);
    }
  }

  /** The tally never exceeds the number of counted judges. */
  lemma TallyAtMostCounted(row: Row, place: int, excluded: Option<nat>)
    ensures Count(row, place, excluded) <= CountedJudges(row, excluded)
  {
    PrefixAtMostCounted(row, |row|, place, excluded);
    CountIsLoopTally(row, place, excluded);
  }

  /** A routine that reaches `majority` at some level has enough counted judges. */
  lemma ReachedNeedsCountedJudges(row: Row, place: int, excluded: Option<nat>, majority: int)
    requires Count(row, place, excluded) >= majority
    ensures CountedJudges(row, excluded) >= majority
  {
    TallyAtMostCounted(row, place, excluded);
  }

  // ---------------------------------------------------------------------------
  // The effect of leaving the head judge out.

  lemma {:induction false} PrefixHeadJudge(row: Row, n: nat, place: int, hj: nat)
    requires hj < n <= |row|
    ensures CountPrefix(row, n, place, None)
         == CountPrefix(row, n, place, Some(hj)) + (if row[hj] <= place then 1 else 0)
    ensures SumPrefix(row, n, place, None)
         == SumPrefix(row, n, place, Some(hj)) + (if row[hj] <= place then row[hj] else 0)
  {
    if n - 1 > hj {
      PrefixHeadJudge(row, n - 1, place, hj);
    } else {
      PrefixOthersOnly(row, n - 1, place, hj);
    }
  }

  lemma {:induction false} PrefixOthersOnly(row: Row, n: nat, place: int, hj: nat)
    requires n <= hj && n <= |row|
    ensures CountPrefix(row, n, place, None) == CountPrefix(row, n, place, Some(hj))
    ensures SumPrefix(row, n, place, None) == SumPrefix(row, n, place, Some(hj))
  {
    if n > 0 {
      PrefixOthersOnly(row, n - 1, place, hj);
    }
  }

  /** Counting everyone differs from leaving the head judge out by exactly the
      head judge's own vote, in the tally and in the sum. */
  lemma HeadJudgeContribution(row: Row, place: int, hj: nat)
    requires hj < |row|
    ensures Count(row, place, None) == Count(row, place, Some(hj)) + (if row[hj] <= place then 1 else 0)
    ensures RankSum(row, place, None) == RankSum(row, place, Some(hj)) + (if row[hj] <= place then row[hj] else 0)
  {
    PrefixHeadJudge(row, |row|, place, hj);
    CountIsLoopTally(row, place, None);
    CountIsLoopTally(row, place, Some(hj));
  }

  /** A judge that is not on the panel excludes nobody. */
  lemma {:induction false} AbsentJudgeExcludesNobody(row: Row, place: int, hj: nat)
    requires |row| <= hj
    ensures Count(row, place, Some(hj)) == Count(row, place, None)
    ensures RankSum(row, place, Some(hj)) == RankSum(row, place, None)
  {
    PrefixOthersOnly(row, |row|, place, hj);
    CountIsLoopTally(row, place, None);
    CountIsLoopTally(row, place, Some(hj));
  }

  // ---------------------------------------------------------------------------
  // The accumulator loops of scoring.py and scoring2.py (`count_placements`,
  // `sum_placements`); `headJudge == None` is the default argument.

  method CountPlacements(scores: Table, routine: Routine, placement: int, headJudge: Option<nat>)
    returns (tally: nat)
    requires routine in scores
    ensures tally == Count(scores[routine], placement, headJudge)
  {
    tally := 0;
    var judgesPlacements := scores[routine];
    for judge := 0 to |judgesPlacements|
      invariant tally == CountPrefix(judgesPlacements, judge, placement, headJudge)
    {
      if judgesPlacements[judge] <= placement && headJudge != Some(judge) {
        tally := tally + 1;
      }
    }
    CountIsLoopTally(judgesPlacements, placement, headJudge);
  }

  method SumPlacements(scores: Table, routine: Routine, placement: int, headJudge: Option<nat>)
    returns (sum: int)
    requires routine in scores
    ensures sum == RankSum(scores[routine], placement, headJudge)
  {
    sum := 0;
    var judgesPlacements := scores[routine];
    for judge := 0 to |judgesPlacements|
      invariant sum == SumPrefix(judgesPlacements, judge, placement, headJudge)
    {
      if judgesPlacements[judge] <= placement && headJudge != Some(judge) {
        sum := sum + judgesPlacements[judge];
      }
    }
  }
}
