/** What the tie-breaks of Relative_Placement.py do to the object's state: the
    trace table (`relative_placements`) they annotate and the final places
    (`final_placements`) they hand out, step by step as the source does it. */
module TiebreakRun {
  import opened ScoreTable
  import opened Placement
  import opened Tiebreak

  /** One cell of the trace table: the tally at a level, or, once the sum phase
      compared the routine at that level, the tally together with the rank sum
      (the source's `{'count': .., 'sum': ..}`). */
  datatype Entry = Tallied(count: int) | Compared(count: int, sum: int)

  /** Routine -> level -> cell. */
  type Trace = map<Routine, map<int, Entry>>

  /** The part of the object the tie-breaks change. */
  datatype State = State(trace: Trace, final: map<Routine, int>)

  /** The sum phase's annotation of one cell: a bare tally gains the rank sum;
      a cell that already holds one is left alone. */
  function CompareRow(row: map<int, Entry>, place: int, sum: int): map<int, Entry>
  {
    if place in row && row[place].Tallied? then row[place := Compared(row[place].count, sum)] else row
  }

  /** The sum phase annotates the cell at `place` of every routine of `g`. */
  ghost function CompareAll(c: Criteria, t: Trace, g: set<Routine>, place: int): Trace
  {
    map r | r in t :: if r in g then CompareRow(t[r], place, c.sum(r, place)) else t[r]
  }

  /** The count phase overwrites the cell at `place` of every routine of `g`
      with its bare tally. */
  ghost function TallyAll(c: Criteria, t: Trace, g: set<Routine>, place: int): Trace
  {
    map r | r in t :: if r in g then t[r][place := Tallied(c.count(r, place))] else t[r]
  }

  /** Every routine of `g` takes place `k`. */
  function Award(st: State, g: set<Routine>, k: int): State
  {
    st.(final := st.final + map r | r in g :: k)
  }

  /** `__chiefjudgetie`: the group takes consecutive places in the head
      judge's order. */
  ghost function ChiefRun(c: Criteria, st: State, g: set<Routine>, k: int): State
    requires g <= c.rank.Keys
  {
    st.(final := st.final + HeadOrder(g, c.rank, k))
  }

  /** `__ties` on the object's state. */
  ghost function TiesRun(c: Criteria, st: State, g: set<Routine>, place: int, k: int): State
    requires g <= c.rank.Keys
    decreases LevelsLeft(c, place), |g|, 2
  {
    if place > c.last then ChiefRun(c, st, g, k)
    else if |g| <= 1 then Award(st, g, k)
    else TiesRunSplit(c, st, g, place, k)
  }

  /** The winner search of `__ties` annotates every cell it compares, then the
      smallest rank sums go first. */
  ghost function TiesRunSplit(c: Criteria, st: State, g: set<Routine>, place: int, k: int): State
    requires g <= c.rank.Keys && place <= c.last && |g| >= 2
    decreases LevelsLeft(c, place), |g|, 1
  {
    MinGroupNonEmpty(g, c.Sums(g, place));
    TiesRunJoin(c, st.(trace := CompareAll(c, st.trace, g, place)), g, c.SumTie(g, place), place, k)
  }

  ghost function TiesRunJoin(c: Criteria, st: State, g: set<Routine>, tie: set<Routine>, place: int, k: int): State
    requires g <= c.rank.Keys && place <= c.last && tie <= g && tie != {}
    decreases LevelsLeft(c, place), |g|, 0
  {
    SubsetCard(g - tie, g);
    if |tie| >= 2 then TiesRun(c, DownRun(c, st, tie, place + 1, k), g - tie, place, k + |tie|)
    else TiesRun(c, Award(st, tie, k), g - tie, place, k + 1)
  }

  /** `__down` on the object's state. */
  ghost function DownRun(c: Criteria, st: State, g: set<Routine>, place: int, k: int): State
    requires g <= c.rank.Keys
    decreases LevelsLeft(c, place), |g|, 2
  {
    if place > c.last then ChiefRun(c, st, g, k)
    else if |g| <= 1 then Award(st, g, k)
    else DownRunSplit(c, st, g, place, k)
  }

  /** The winner search of `__down` records every tally it computes, then the
      largest tallies go first. */
  ghost function DownRunSplit(c: Criteria, st: State, g: set<Routine>, place: int, k: int): State
    requires g <= c.rank.Keys && place <= c.last && |g| >= 2
    decreases LevelsLeft(c, place), |g|, 1
  {
    MaxGroupNonEmpty(g, c.Counts(g, place));
    DownRunJoin(c, st.(trace := TallyAll(c, st.trace, g, place)), g, c.CountTie(g, place), place, k)
  }

  ghost function DownRunJoin(c: Criteria, st: State, g: set<Routine>, tie: set<Routine>, place: int, k: int): State
    requires g <= c.rank.Keys && place <= c.last && tie <= g && tie != {}
    decreases LevelsLeft(c, place), |g|, 0
  {
    SubsetCard(g - tie, g);
    if |tie| >= 2 then TiesRun(c, DownRun(c, st, tie, place + 1, k), g - tie, place, k + |tie|)
    else DownRun(c, Award(st, tie, k), g - tie, place, k + 1)
  }

  // ---------------------------------------------------------------------------
  // One call of `__ties` or `__down`, unfolded.

  /** Awarding nobody changes nothing. */
  lemma AwardNone(st: State, k: int)
    ensures Award(st, {}, k) == st
  {
    assert Award(st, {}, k).final == st.final;
  }

  /** Awarding one routine sets its final place. */
  lemma AwardOne(st: State, x: Routine, k: int)
    ensures Award(st, {x}, k) == st.(final := st.final[x := k])
  {
    assert Award(st, {x}, k).final == st.final[x := k];
  }

  /** With two or more routines and levels left, `__ties` annotates the cells
      of the level and goes on with the group of smallest sums. */
  lemma TiesRunSplits(c: Criteria, st: State, g: set<Routine>, place: int, k: int)
    requires g <= c.rank.Keys && place <= c.last && |g| >= 2
    ensures c.SumTie(g, place) <= g && c.SumTie(g, place) != {}
    ensures TiesRun(c, st, g, place, k)
         == TiesRunJoin(c, st.(trace := CompareAll(c, st.trace, g, place)), g, c.SumTie(g, place), place, k)
  {
    MinGroupNonEmpty(g, c.Sums(g, place));
  }

  /** With two or more routines and levels left, `__down` records the tallies
      of the level and goes on with the group of largest tallies. */
  lemma DownRunSplits(c: Criteria, st: State, g: set<Routine>, place: int, k: int)
    requires g <= c.rank.Keys && place <= c.last && |g| >= 2
    ensures c.CountTie(g, place) <= g && c.CountTie(g, place) != {}
    ensures DownRun(c, st, g, place, k)
         == DownRunJoin(c, st.(trace := TallyAll(c, st.trace, g, place)), g, c.CountTie(g, place), place, k)
  {
    MaxGroupNonEmpty(g, c.Counts(g, place));
  }

  /** A lone leader of `__ties` takes the place and the rest go on at the same level. */
  lemma TiesRunLone(c: Criteria, st: State, g: set<Routine>, w: Routine, place: int, k: int)
    requires g <= c.rank.Keys && place <= c.last && w in g
    ensures TiesRunJoin(c, st, g, {w}, place, k) == TiesRun(c, st.(final := st.final[w := k]), g - {w}, place, k + 1)
  {
    AwardOne(st, w, k);
  }

  /** A lone leader of `__down` takes the place and the rest go on at the same level. */
  lemma DownRunLone(c: Criteria, st: State, g: set<Routine>, w: Routine, place: int, k: int)
    requires g <= c.rank.Keys && place <= c.last && w in g
    ensures DownRunJoin(c, st, g, {w}, place, k) == DownRun(c, st.(final := st.final[w := k]), g - {w}, place, k + 1)
  {
    AwardOne(st, w, k);
  }

  // ---------------------------------------------------------------------------
  // The final places the runs hand out are the tie-breaks' placements.

  lemma MergeAssoc(a: map<Routine, int>, b: map<Routine, int>, d: map<Routine, int>)
    ensures (a + b) + d == a + (b + d)
  {
  }

  /** Places handed out in two steps, merged in either grouping. */
  lemma MergeChain(x: map<Routine, int>, y: map<Routine, int>, a: map<Routine, int>,
                   b: map<Routine, int>, d: map<Routine, int>, e: map<Routine, int>)
    requires x == y + d && y == a + b && e == b + d
    ensures x == a + e
  {
    MergeAssoc(a, b, d);
  }

  lemma {:induction false} TiesRunFinal(c: Criteria, st: State, g: set<Routine>, place: int, k: int)
    requires g <= c.rank.Keys
    ensures TiesRun(c, st, g, place, k).final == st.final + TiesFinal(c, g, place, k)
    decreases LevelsLeft(c, place), |g|, 2
  {
    if place <= c.last && |g| >= 2 {
      MinGroupNonEmpty(g, c.Sums(g, place));
      TiesRunJoinFinal(c, st.(trace := CompareAll(c, st.trace, g, place)), g, c.SumTie(g, place), place, k);
    }
  }

  lemma {:induction false} TiesRunJoinFinal(c: Criteria, st: State, g: set<Routine>, tie: set<Routine>, place: int, k: int)
    requires g <= c.rank.Keys && place <= c.last && tie <= g && tie != {}
    ensures TiesRunJoin(c, st, g, tie, place, k).final == st.final + TiesJoin(c, g, tie, place, k)
    decreases LevelsLeft(c, place), |g|, 1
  {
    if |tie| >= 2 {
      TiesRunTiedFinal(c, st, g, tie, place, k);
    } else {
      TiesRunLoneFinal(c, st, g, tie, place, k);
    }
  }

  lemma {:induction false} TiesRunTiedFinal(c: Criteria, st: State, g: set<Routine>, tie: set<Routine>, place: int, k: int)
    requires g <= c.rank.Keys && place <= c.last && tie <= g && |tie| >= 2
    ensures TiesRunJoin(c, st, g, tie, place, k).final == st.final + TiesJoin(c, g, tie, place, k)
    decreases LevelsLeft(c, place), |g|, 0
  {
    DifferenceCard(g, tie);
    DownRunFinal(c, st, tie, place + 1, k);
    TiesRunFinal(c, DownRun(c, st, tie, place + 1, k), g - tie, place, k + |tie|);
    MergeAssoc(st.final, DownFinal(c, tie, place + 1, k), TiesFinal(c, g - tie, place, k + |tie|));
  }

  lemma {:induction false} TiesRunLoneFinal(c: Criteria, st: State, g: set<Routine>, tie: set<Routine>, place: int, k: int)
    requires g <= c.rank.Keys && place <= c.last && tie <= g && |tie| == 1
    ensures TiesRunJoin(c, st, g, tie, place, k).final == st.final + TiesJoin(c, g, tie, place, k)
    decreases LevelsLeft(c, place), |g|, 0
  {
    DifferenceCard(g, tie);
    TiesRunFinal(c, Award(st, tie, k), g - tie, place, k + 1);
    MergeAssoc(st.final, map r | r in tie :: k, TiesFinal(c, g - tie, place, k + 1));
  }

  lemma {:induction false} DownRunFinal(c: Criteria, st: State, g: set<Routine>, place: int, k: int)
    requires g <= c.rank.Keys
    ensures DownRun(c, st, g, place, k).final == st.final + DownFinal(c, g, place, k)
    decreases LevelsLeft(c, place), |g|, 2
  {
    if place <= c.last && |g| >= 2 {
      MaxGroupNonEmpty(g, c.Counts(g, place));
      DownRunJoinFinal(c, st.(trace := TallyAll(c, st.trace, g, place)), g, c.CountTie(g, place), place, k);
    }
  }

  lemma {:induction false} DownRunJoinFinal(c: Criteria, st: State, g: set<Routine>, tie: set<Routine>, place: int, k: int)
    requires g <= c.rank.Keys && place <= c.last && tie <= g && tie != {}
    ensures DownRunJoin(c, st, g, tie, place, k).final == st.final + DownJoin(c, g, tie, place, k)
    decreases LevelsLeft(c, place), |g|, 1
  {
    if |tie| >= 2 {
      DownRunTiedFinal(c, st, g, tie, place, k);
    } else {
      DownRunLoneFinal(c, st, g, tie, place, k);
    }
  }

  lemma {:induction false} DownRunTiedFinal(c: Criteria, st: State, g: set<Routine>, tie: set<Routine>, place: int, k: int)
    requires g <= c.rank.Keys && place <= c.last && tie <= g && |tie| >= 2
    ensures DownRunJoin(c, st, g, tie, place, k).final == st.final + DownJoin(c, g, tie, place, k)
    decreases LevelsLeft(c, place), |g|, 0
  {
    DifferenceCard(g, tie);
    DownRunFinal(c, st, tie, place + 1, k);
    TiesRunFinal(c, DownRun(c, st, tie, place + 1, k), g - tie, place, k + |tie|);
    MergeAssoc(st.final, DownFinal(c, tie, place + 1, k), TiesFinal(c, g - tie, place, k + |tie|));
  }

  lemma {:induction false} DownRunLoneFinal(c: Criteria, st: State, g: set<Routine>, tie: set<Routine>, place: int, k: int)
    requires g <= c.rank.Keys && place <= c.last && tie <= g && |tie| == 1
    ensures DownRunJoin(c, st, g, tie, place, k).final == st.final + DownJoin(c, g, tie, place, k)
    decreases LevelsLeft(c, place), |g|, 0
  {
    DifferenceCard(g, tie);
    DownRunFinal(c, Award(st, tie, k), g - tie, place, k + 1);
    MergeAssoc(st.final, map r | r in tie :: k, DownFinal(c, g - tie, place, k + 1));
  }

  // ---------------------------------------------------------------------------
  // The trace only ever shows the true tally and rank sum, and a tie-break
  // touches the rows of its own group and no others.

  /** Every cell of `row` holds the routine's tally at its level, alone or
      with the rank sum at that level. */
  ghost predicate RowTrue(c: Criteria, r: Routine, row: map<int, Entry>)
  {
    forall p {:trigger row[p]} :: p in row ==> row[p] == Tallied(c.count(r, p)) || row[p] == Compared(c.count(r, p), c.sum(r, p))
  }

  ghost predicate TraceTrue(c: Criteria, t: Trace)
  {
    forall r :: r in t ==> RowTrue(c, r, t[r])
  }

  /** `t2` has the routines of `t`, changes only rows of `g`, and keeps the
      trace true. */
  ghost predicate Keeps(c: Criteria, t: Trace, t2: Trace, g: set<Routine>)
  {
    && t2.Keys == t.Keys
    && (forall r :: r in t && r !in g ==> t2[r] == t[r])
    && (TraceTrue(c, t) ==> TraceTrue(c, t2))
  }

  lemma KeepsTrans(c: Criteria, t1: Trace, t2: Trace, t3: Trace, g1: set<Routine>, g2: set<Routine>, g: set<Routine>)
    requires g1 <= g && g2 <= g
    requires Keeps(c, t1, t2, g1) && Keeps(c, t2, t3, g2)
    ensures Keeps(c, t1, t3, g)
  {
  }

  lemma CompareAllKeeps(c: Criteria, t: Trace, g: set<Routine>, place: int)
    ensures Keeps(c, t, CompareAll(c, t, g, place), g)
  {
    var t2 := CompareAll(c, t, g, place);
    if TraceTrue(c, t) {
      forall r | r in t2
        ensures RowTrue(c, r, t2[r])
      {
        assert RowTrue(c, r, t[r]);
      }
    }
  }

  lemma TallyAllKeeps(c: Criteria, t: Trace, g: set<Routine>, place: int)
    ensures Keeps(c, t, TallyAll(c, t, g, place), g)
  {
    var t2 := TallyAll(c, t, g, place);
    if TraceTrue(c, t) {
      forall r | r in t2
        ensures RowTrue(c, r, t2[r])
      {
        assert RowTrue(c, r, t[r]);
      }
    }
  }

  lemma {:induction false} TiesRunKeeps(c: Criteria, st: State, g: set<Routine>, place: int, k: int)
    requires g <= c.rank.Keys
    ensures Keeps(c, st.trace, TiesRun(c, st, g, place, k).trace, g)
    decreases LevelsLeft(c, place), |g|, 2
  {
    if place <= c.last && |g| >= 2 {
      MinGroupNonEmpty(g, c.Sums(g, place));
      var st2 := st.(trace := CompareAll(c, st.trace, g, place));
      CompareAllKeeps(c, st.trace, g, place);
      TiesRunJoinKeeps(c, st2, g, c.SumTie(g, place), place, k);
      KeepsTrans(c, st.trace, st2.trace, TiesRunJoin(c, st2, g, c.SumTie(g, place), place, k).trace, g, g, g);
    }
  }

  lemma {:induction false} TiesRunJoinKeeps(c: Criteria, st: State, g: set<Routine>, tie: set<Routine>, place: int, k: int)
    requires g <= c.rank.Keys && place <= c.last && tie <= g && tie != {}
    ensures Keeps(c, st.trace, TiesRunJoin(c, st, g, tie, place, k).trace, g)
    decreases LevelsLeft(c, place), |g|, 1
  {
    if |tie| >= 2 {
      TiesRunTiedKeeps(c, st, g, tie, place, k);
    } else {
      TiesRunLoneKeeps(c, st, g, tie, place, k);
    }
  }

  lemma {:induction false} TiesRunTiedKeeps(c: Criteria, st: State, g: set<Routine>, tie: set<Routine>, place: int, k: int)
    requires g <= c.rank.Keys && place <= c.last && tie <= g && |tie| >= 2
    ensures Keeps(c, st.trace, TiesRunJoin(c, st, g, tie, place, k).trace, g)
    decreases LevelsLeft(c, place), |g|, 0
  {
    DifferenceCard(g, tie);
    var st2 := DownRun(c, st, tie, place + 1, k);
    DownRunKeeps(c, st, tie, place + 1, k);
    TiesRunKeeps(c, st2, g - tie, place, k + |tie|);
    KeepsTrans(c, st.trace, st2.trace, TiesRun(c, st2, g - tie, place, k + |tie|).trace, tie, g - tie, g);
  }

  lemma {:induction false} TiesRunLoneKeeps(c: Criteria, st: State, g: set<Routine>, tie: set<Routine>, place: int, k: int)
    requires g <= c.rank.Keys && place <= c.last && tie <= g && |tie| == 1
    ensures Keeps(c, st.trace, TiesRunJoin(c, st, g, tie, place, k).trace, g)
    decreases LevelsLeft(c, place), |g|, 0
  {
    DifferenceCard(g, tie);
    TiesRunKeeps(c, Award(st, tie, k), g - tie, place, k + 1);
  }

  lemma {:induction false} DownRunKeeps(c: Criteria, st: State, g: set<Routine>, place: int, k: int)
    requires g <= c.rank.Keys
    ensures Keeps(c, st.trace, DownRun(c, st, g, place, k).trace, g)
    decreases LevelsLeft(c, place), |g|, 2
  {
    if place <= c.last && |g| >= 2 {
      MaxGroupNonEmpty(g, c.Counts(g, place));
      var st2 := st.(trace := TallyAll(c, st.trace, g, place));
      TallyAllKeeps(c, st.trace, g, place);
      DownRunJoinKeeps(c, st2, g, c.CountTie(g, place), place, k);
      KeepsTrans(c, st.trace, st2.trace, DownRunJoin(c, st2, g, c.CountTie(g, place), place, k).trace, g, g, g);
    }
  }

  lemma {:induction false} DownRunJoinKeeps(c: Criteria, st: State, g: set<Routine>, tie: set<Routine>, place: int, k: int)
    requires g <= c.rank.Keys && place <= c.last && tie <= g && tie != {}
    ensures Keeps(c, st.trace, DownRunJoin(c, st, g, tie, place, k).trace, g)
    decreases LevelsLeft(c, place), |g|, 1
  {
    if |tie| >= 2 {
      DownRunTiedKeeps(c, st, g, tie, place, k);
    } else {
      DownRunLoneKeeps(c, st, g, tie, place, k);
    }
  }

  lemma {:induction false} DownRunTiedKeeps(c: Criteria, st: State, g: set<Routine>, tie: set<Routine>, place: int, k: int)
    requires g <= c.rank.Keys && place <= c.last && tie <= g && |tie| >= 2
    ensures Keeps(c, st.trace, DownRunJoin(c, st, g, tie, place, k).trace, g)
    decreases LevelsLeft(c, place), |g|, 0
  {
    DifferenceCard(g, tie);
    var st2 := DownRun(c, st, tie, place + 1, k);
    DownRunKeeps(c, st, tie, place + 1, k);
    TiesRunKeeps(c, st2, g - tie, place, k + |tie|);
    KeepsTrans(c, st.trace, st2.trace, TiesRun(c, st2, g - tie, place, k + |tie|).trace, tie, g - tie, g);
  }

  lemma {:induction false} DownRunLoneKeeps(c: Criteria, st: State, g: set<Routine>, tie: set<Routine>, place: int, k: int)
    requires g <= c.rank.Keys && place <= c.last && tie <= g && |tie| == 1
    ensures Keeps(c, st.trace, DownRunJoin(c, st, g, tie, place, k).trace, g)
    decreases LevelsLeft(c, place), |g|, 0
  {
    DifferenceCard(g, tie);
    DownRunKeeps(c, Award(st, tie, k), g - tie, place, k + 1);
  }
}
