/** The specification of the class-based variant (Relative_Placement.py):
    what its recursion computes, as functions of the constructor's arguments. */
module RelativePlacementSpec {
  import opened ScoreTable
  import opened Tally
  import opened Placement
  import opened Tiebreak
  import opened TiebreakRun

  /** The constructor's arguments. */
  datatype Setup = Setup(places: Table, headJudge: nat, majority: int, includeHeadJudge: bool)
  {
    /** The judge left out of tallies and sums: the head judge unless `include`. */
    function Excluded(): Option<nat>
    {
      if includeHeadJudge then None else Some(headJudge)
    }

    /** The number of routines, the last level the tie-breaks consult. */
    function N(): nat
    {
      |places|
    }

    /** `__count(place, places[r])`. */
    function CountAt(r: Routine, place: int): nat
      requires r in places
    {
      Count(places[r], place, Excluded())
    }

    /** `__sum(place, places[r])`. */
    function SumAt(r: Routine, place: int): int
      requires r in places
    {
      RankSum(places[r], place, Excluded())
    }

    ghost predicate HeadJudgeOnPanel()
    {
      forall r :: r in places ==> headJudge < |places[r]|
    }

    /** Routine -> the head judge's rank for it. */
    ghost function HeadRanks(): map<Routine, int>
    {
      map r | r in places :: if headJudge < |places[r]| then places[r][headJudge] else 0
    }

    /** What the tie-breaks consult for this setup. */
    ghost function Crit(): Criteria
    {
      Criteria(N(),
               (r, p) => if r in places then CountAt(r, p) else 0,
               (r, p) => if r in places then SumAt(r, p) else 0,
               HeadRanks())
    }

    /** Every routine has enough counted judges to reach the majority at some
        level; otherwise the column filling never ends. */
    ghost predicate Finishes()
    {
      forall r :: r in places ==> CountedJudges(places[r], Excluded()) >= majority
    }

    /** What the source needs to finish and to place everyone: the column
        filling ends, and the head judge sits on every row with pairwise
        distinct ranks (the fallback keys a dict by them). */
    ghost predicate Valid()
    {
      && Finishes()
      && HeadJudgeOnPanel()
      && DistinctRanks(places.Keys, HeadRanks())
    }

    /** `r` had not reached the majority at any level below `place`. */
    ghost predicate NotReachedBefore(r: Routine, place: int)
      requires r in places
    {
      place <= 1 || CountAt(r, place - 1) < majority
    }

    /** The routines of `g` whose tally at `place` reaches the majority. */
    ghost function ReachedAt(g: set<Routine>, place: int): set<Routine>
      requires g <= places.Keys
    {
      set r | r in g && CountAt(r, place) >= majority
    }

    /** The routines of `g` whose tally at `place` stays below the majority. */
    ghost function StillBelow(g: set<Routine>, place: int): set<Routine>
      requires g <= places.Keys
    {
      set r | r in g && CountAt(r, place) < majority
    }
  }

  // ---------------------------------------------------------------------------
  // Facts about a setup.

  lemma CritValid(s: Setup)
    requires s.Valid()
    ensures s.Crit().Valid() && s.Crit().rank.Keys == s.places.Keys && s.Crit().last == s.N()
  {
  }

  /** A routine still pending at `place` has not saturated its tally, so
      `place` is at most the largest rank in the table. */
  lemma PendingBelowBound(s: Setup, r: Routine, place: int)
    requires s.Finishes() && r in s.places && s.NotReachedBefore(r, place)
    ensures place <= TableBound(s.places)
  {
    if place > TableBound(s.places) {
      TallySaturates(s.places[r], place - 1, s.Excluded());
    }
  }

  /** Those that reach the majority are among those tallied. */
  lemma ReachedAtSubset(s: Setup, g: set<Routine>, place: int)
    requires g <= s.places.Keys
    ensures s.ReachedAt(g, place) <= g
  {
  }

  /** Once reached, the majority stays reached at every later level. */
  lemma StaysReached(s: Setup, r: Routine, p: int, q: int)
    requires r in s.places && 0 <= p <= q && s.CountAt(r, p) >= s.majority
    ensures s.CountAt(r, q) >= s.majority
  {
    TallyMonotone(s.places[r], p, q, s.Excluded());
  }

  // ---------------------------------------------------------------------------
  // `__fill_columns`: the trace table before any tie-break.

  /** The row of `r` so far (none yet: empty). */
  function RowOf(t: Trace, r: Routine): map<int, Entry>
  {
    if r in t then t[r] else map[]
  }

  /** One pass of the loop: every routine still pending records its tally at
      `place`, its row being created at the first level. */
  ghost function RecordAll(s: Setup, t: Trace, g: set<Routine>, place: int): Trace
    requires g <= s.places.Keys
  {
    map r | r in t.Keys + g :: if r in g then RowOf(t, r)[place := Tallied(s.CountAt(r, place))] else t[r]
  }

  /** The row that `__fill_columns` leaves for `r`: its tally at every level
      from 1 up to and including the first at which it reaches the majority
      (no routine is pending beyond the largest rank in the table). */
  ghost function FilledRow(s: Setup, r: Routine): map<int, Entry>
    requires r in s.places
  {
    map p | 1 <= p <= TableBound(s.places) && s.NotReachedBefore(r, p) :: Tallied(s.CountAt(r, p))
  }

  /** The trace the constructor builds first. */
  ghost function FillTrace(s: Setup): Trace
  {
    map r | r in s.places :: FilledRow(s, r)
  }

  /** The row of `r` holds the tally at exactly the levels `p` before `place`
      at which `r` was still pending. */
  ghost predicate RecordedBelow(s: Setup, r: Routine, row: map<int, Entry>, place: int)
    requires r in s.places
  {
    && (forall p :: p in row <==> 1 <= p < place && s.NotReachedBefore(r, p))
    && (forall p {:trigger row[p]} :: p in row ==> row[p] == Tallied(s.CountAt(r, p)))
  }

  /** The row of `r` holds the tally at exactly the levels `p >= 1` at which
      `r` was still pending: up to and including its first majority. */
  ghost predicate Recorded(s: Setup, r: Routine, row: map<int, Entry>)
    requires r in s.places
  {
    && (forall p :: p in row <==> 1 <= p && s.NotReachedBefore(r, p))
    && (forall p {:trigger row[p]} :: p in row ==> row[p] == Tallied(s.CountAt(r, p)))
  }

  /** Every routine has a row, recorded as `Recorded` says. */
  ghost predicate AllRecorded(s: Setup, t: Trace)
  {
    && t.Keys == s.places.Keys
    && (forall r :: r in s.places ==> Recorded(s, r, t[r]))
  }

  /** The state of the column filling on entry to `__fill_columns(pending, place)`:
      the routines pending are exactly those that have not yet reached the
      majority, every routine seen so far has a row, and each row holds the
      levels below `place`. */
  ghost predicate FillInv(s: Setup, t: Trace, pending: set<Routine>, place: int)
  {
    && t.Keys + pending == s.places.Keys
    && pending <= s.places.Keys
    && (forall r :: r in s.places ==> (r in pending <==> s.NotReachedBefore(r, place)))
    && (forall r :: r in s.places ==> RecordedBelow(s, r, RowOf(t, r), place))
  }

  /** The closed form is what the column filling records. */
  lemma FillTraceRecorded(s: Setup)
    requires s.Finishes()
    ensures AllRecorded(s, FillTrace(s))
  {
    forall r | r in s.places
      ensures Recorded(s, r, FillTrace(s)[r])
    {
      forall p | 1 <= p && s.NotReachedBefore(r, p)
        ensures p in FilledRow(s, r)
      {
        PendingBelowBound(s, r, p);
      }
    }
  }

  /** `Recorded` pins down the trace completely. */
  lemma RecordedUnique(s: Setup, t: Trace, u: Trace)
    requires AllRecorded(s, t) && AllRecorded(s, u)
    ensures t == u
  {
    forall r | r in s.places
      ensures t[r] == u[r]
    {
      assert Recorded(s, r, t[r]) && Recorded(s, r, u[r]);
      forall p
        ensures p in t[r] <==> p in u[r]
        ensures p in t[r] ==> t[r][p] == u[r][p]
      {
        assert p in t[r] <==> 1 <= p && s.NotReachedBefore(r, p);
        if p in t[r] {
          assert t[r][p] == Tallied(s.CountAt(r, p)) == u[r][p];
        }
      }
      assert t[r].Keys == u[r].Keys;
    }
  }

  /** Pending at `place + 1` is pending at `place` and not reached there. */
  lemma NextPending(s: Setup, r: Routine, place: int)
    requires r in s.places && place >= 1
    ensures s.NotReachedBefore(r, place + 1) <==> s.NotReachedBefore(r, place) && s.CountAt(r, place) < s.majority
  {
    if place > 1 && s.CountAt(r, place - 1) >= s.majority {
      StaysReached(s, r, place - 1, place);
    }
  }

  /** No longer pending at `place` means no longer pending at any later level. */
  lemma NeverPendingAgain(s: Setup, r: Routine, place: int, p: int)
    requires r in s.places && place <= p && !s.NotReachedBefore(r, place)
    ensures !s.NotReachedBefore(r, p)
  {
    StaysReached(s, r, place - 1, p - 1);
  }

  /** One level for one routine: the row of `r` gains this level's tally
      exactly when `r` is pending. */
  lemma RecordAllRow(s: Setup, t: Trace, pending: set<Routine>, place: int, r: Routine)
    requires pending <= s.places.Keys && r in s.places && place >= 1
    requires r in pending <==> s.NotReachedBefore(r, place)
    requires RecordedBelow(s, r, RowOf(t, r), place)
    requires r !in t ==> r in pending
    ensures RecordedBelow(s, r, RowOf(RecordAll(s, t, pending, place), r), place + 1)
  {
  }

  /** One level of `__fill_columns` keeps its invariant. */
  lemma RecordAllInv(s: Setup, t: Trace, pending: set<Routine>, place: int)
    requires place >= 1 && FillInv(s, t, pending, place)
    ensures FillInv(s, RecordAll(s, t, pending, place), pending - s.ReachedAt(pending, place), place + 1)
  {
    var rest := pending - s.ReachedAt(pending, place);
    forall r | r in s.places
      ensures (r in rest <==> s.NotReachedBefore(r, place + 1))
      ensures RecordedBelow(s, r, RowOf(RecordAll(s, t, pending, place), r), place + 1)
    {
      NextPending(s, r, place);
      RecordAllRow(s, t, pending, place, r);
    }
  }

  /** While anyone is pending the level is within the table's ranks. */
  lemma FillBound(s: Setup, t: Trace, pending: set<Routine>, place: int)
    requires s.Finishes() && FillInv(s, t, pending, place) && pending != {}
    ensures place <= TableBound(s.places)
  {
    NonEmptyHasMember(pending);
    var w :| w in pending;
    PendingBelowBound(s, w, place);
  }

  /** With nobody pending, the rows recorded so far are complete: the column
      filling has produced the closed form. */
  lemma FillDone(s: Setup, t: Trace, place: int)
    requires s.Finishes() && place >= 1 && FillInv(s, t, {}, place)
    ensures t == FillTrace(s)
  {
    forall r | r in s.places
      ensures Recorded(s, r, t[r])
    {
      assert RecordedBelow(s, r, RowOf(t, r), place);
      forall p | p >= place
        ensures !s.NotReachedBefore(r, p)
      {
        NeverPendingAgain(s, r, place, p);
      }
    }
    FillTraceRecorded(s);
    RecordedUnique(s, t, FillTrace(s));
  }

  /** The constructor's first call starts from the invariant. */
  lemma FillStart(s: Setup)
    ensures FillInv(s, map[], s.places.Keys, 1)
  {
  }

  /** The filled trace shows the true tallies. */
  lemma FillTraceTrue(s: Setup)
    ensures TraceTrue(s.Crit(), FillTrace(s))
  {
    forall r | r in FillTrace(s)
      ensures RowTrue(s.Crit(), r, FillTrace(s)[r])
    {
      assert FillTrace(s)[r] == FilledRow(s, r);
    }
  }
}
