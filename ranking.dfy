/** `__cathunk` in Relative_Placement.py: going down the levels, the routines
    that first reach the majority at a level take the next places, a lone one
    at once and a group through the tie-breaks. */
module Ranking {
  import opened ScoreTable
  import opened Tally
  import opened Placement
  import opened Tiebreak
  import opened TiebreakRun
  import opened RelativePlacementSpec

  /** The routines `pending` are still unplaced on reaching `place`: none of
      them has reached the majority at a level above it. */
  ghost predicate Pending(s: Setup, pending: set<Routine>, place: int)
  {
    && pending <= s.places.Keys
    && place >= 1
    && (forall r :: r in pending ==> s.NotReachedBefore(r, place))
  }

  /** While anyone is unplaced, the level is within the table's ranks. */
  lemma PendingBound(s: Setup, pending: set<Routine>, place: int)
    requires s.Finishes() && Pending(s, pending, place) && pending != {}
    ensures place <= TableBound(s.places)
  {
    NonEmptyHasMember(pending);
    var w :| w in pending;
    PendingBelowBound(s, w, place);
  }

  /** `rest` is `pending` without `m`. */
  ghost predicate Without(pending: set<Routine>, m: set<Routine>, rest: set<Routine>)
  {
    forall r :: r in rest <==> r in pending && r !in m
  }

  /** Those not reaching the majority at `place` are pending one level down. */
  lemma PendingRest(s: Setup, pending: set<Routine>, m: set<Routine>, rest: set<Routine>, place: int)
    requires Pending(s, pending, place) && m == s.ReachedAt(pending, place) && Without(pending, m, rest)
    ensures m <= pending && Pending(s, rest, place + 1)
  {
    forall r | r in rest
      ensures s.NotReachedBefore(r, place + 1)
    {
      assert r !in m;
    }
  }

  // ---------------------------------------------------------------------------
  // The places handed out.

  /** The places handed at `place` to the routines `m` that first reach the
      majority there: one alone takes place `k`, two or more go to the sum
      phase. */
  ghost function LevelFinal(s: Setup, m: set<Routine>, place: int, k: int): map<Routine, int>
    requires m <= s.places.Keys
  {
    if |m| <= 1 then map r | r in m :: k else TiesFinal(s.Crit(), m, place, k)
  }

  /** `__cathunk(pending, place, k)`: the places it hands out. */
  ghost function CathunkFinal(s: Setup, pending: set<Routine>, place: int, k: int): map<Routine, int>
    requires s.Finishes() && Pending(s, pending, place)
    decreases TableBound(s.places) + 1 - place, 1
  {
    if pending == {} then map[]
    else
      PendingBound(s, pending, place);
      CathunkStep(s, pending, s.ReachedAt(pending, place), s.StillBelow(pending, place), place, k,
                  k + |s.ReachedAt(pending, place)|)
  }

  /** One level of `__cathunk`: the routines `m` reaching the majority first,
      then the rest one level down. */
  ghost function CathunkStep(s: Setup, pending: set<Routine>, m: set<Routine>, rest: set<Routine>, place: int, k: int, next: int): map<Routine, int>
    requires s.Finishes() && Pending(s, pending, place) && place <= TableBound(s.places)
    requires m == s.ReachedAt(pending, place) && Without(pending, m, rest) && next == k + |m|
    decreases TableBound(s.places) + 1 - place, 0
  {
    PendingRest(s, pending, m, rest, place);
    LevelFinal(s, m, place, k) + CathunkFinal(s, rest, place + 1, next)
  }

  /** The final places of the whole table. */
  ghost function FinalPlaces(s: Setup): map<Routine, int>
    requires s.Finishes()
  {
    CathunkFinal(s, s.places.Keys, 1, 1)
  }

  // ---------------------------------------------------------------------------
  // The same walk on the object's state.

  /** One level on the object's state. */
  ghost function LevelRun(s: Setup, st: State, m: set<Routine>, place: int, k: int): State
    requires m <= s.places.Keys
  {
    if |m| <= 1 then Award(st, m, k) else TiesRun(s.Crit(), st, m, place, k)
  }

  /** `__cathunk(pending, place, k)` on the object's state. */
  ghost function CathunkRun(s: Setup, st: State, pending: set<Routine>, place: int, k: int): State
    requires s.Finishes() && Pending(s, pending, place)
    decreases TableBound(s.places) + 1 - place, 1
  {
    if pending == {} then st
    else
      PendingBound(s, pending, place);
      CathunkRunStep(s, st, pending, s.ReachedAt(pending, place), s.StillBelow(pending, place), place, k,
                     k + |s.ReachedAt(pending, place)|)
  }

  /** One level of `__cathunk` on the object's state. */
  ghost function CathunkRunStep(s: Setup, st: State, pending: set<Routine>, m: set<Routine>, rest: set<Routine>, place: int, k: int, next: int): State
    requires s.Finishes() && Pending(s, pending, place) && place <= TableBound(s.places)
    requires m == s.ReachedAt(pending, place) && Without(pending, m, rest) && next == k + |m|
    decreases TableBound(s.places) + 1 - place, 0
  {
    PendingRest(s, pending, m, rest, place);
    CathunkRun(s, LevelRun(s, st, m, place, k), rest, place + 1, next)
  }

  /** What the constructor leaves: the filled trace annotated by the
      tie-breaks, and the final places. */
  ghost function Ranked(s: Setup): State
    requires s.Finishes()
  {
    CathunkRun(s, State(FillTrace(s), map[]), s.places.Keys, 1, 1)
  }

  // ---------------------------------------------------------------------------
  // The state walk hands out exactly the places above.

  lemma LevelRunFinal(s: Setup, st: State, m: set<Routine>, place: int, k: int)
    requires m <= s.places.Keys
    ensures LevelRun(s, st, m, place, k).final == st.final + LevelFinal(s, m, place, k)
  {
    if |m| > 1 {
      TiesRunFinal(s.Crit(), st, m, place, k);
    }
  }

  lemma {:induction false} CathunkRunFinal(s: Setup, st: State, pending: set<Routine>, place: int, k: int)
    requires s.Finishes() && Pending(s, pending, place)
    ensures CathunkRun(s, st, pending, place, k).final == st.final + CathunkFinal(s, pending, place, k)
    decreases TableBound(s.places) + 1 - place, 1
  {
    if pending != {} {
      PendingBound(s, pending, place);
      var m, rest := s.ReachedAt(pending, place), s.StillBelow(pending, place);
      var next := k + |m|;
      assert Without(pending, m, rest);
      RunStepIs(s, st, pending, m, rest, place, k, next);
      FinalStepIs(s, pending, m, rest, place, k, next);
      CathunkRunStepFinal(s, st, pending, m, rest, place, k, next);
    }
  }

  lemma {:induction false} CathunkRunStepFinal(s: Setup, st: State, pending: set<Routine>, m: set<Routine>, rest: set<Routine>, place: int, k: int, next: int)
    requires s.Finishes() && Pending(s, pending, place) && place <= TableBound(s.places)
    requires m == s.ReachedAt(pending, place) && Without(pending, m, rest) && next == k + |m|
    ensures CathunkRunStep(s, st, pending, m, rest, place, k, next).final == st.final + CathunkStep(s, pending, m, rest, place, k, next)
    decreases TableBound(s.places) + 1 - place, 0
  {
    PendingRest(s, pending, m, rest, place);
    var st2 := LevelRun(s, st, m, place, k);
    LevelRunFinal(s, st, m, place, k);
    CathunkRunFinal(s, st2, rest, place + 1, next);
    MergeChain(CathunkRunStep(s, st, pending, m, rest, place, k, next).final, st2.final, st.final,
               LevelFinal(s, m, place, k), CathunkFinal(s, rest, place + 1, next),
               CathunkStep(s, pending, m, rest, place, k, next));
  }

  /** The constructor's final places are `FinalPlaces`. */
  lemma RankedFinal(s: Setup)
    requires s.Finishes()
    ensures Ranked(s).final == FinalPlaces(s)
  {
    var st := State(FillTrace(s), map[]);
    CathunkRunFinal(s, st, s.places.Keys, 1, 1);
    EmptyMerge(st.final, FinalPlaces(s));
  }

  /** Merging into an empty map gives the map merged in. */
  lemma EmptyMerge(e: map<Routine, int>, f: map<Routine, int>)
    requires e == map[]
    ensures e + f == f
  {
  }

  // ---------------------------------------------------------------------------
  // The trace the walk leaves shows only true tallies and rank sums.

  lemma LevelRunKeeps(s: Setup, st: State, m: set<Routine>, place: int, k: int)
    requires m <= s.places.Keys
    ensures Keeps(s.Crit(), st.trace, LevelRun(s, st, m, place, k).trace, m)
  {
    if |m| > 1 {
      TiesRunKeeps(s.Crit(), st, m, place, k);
    }
  }

  lemma {:induction false} CathunkRunKeeps(s: Setup, st: State, pending: set<Routine>, place: int, k: int)
    requires s.Finishes() && Pending(s, pending, place)
    ensures Keeps(s.Crit(), st.trace, CathunkRun(s, st, pending, place, k).trace, pending)
    decreases TableBound(s.places) + 1 - place
  {
    if pending != {} {
      var m, rest := s.ReachedAt(pending, place), s.StillBelow(pending, place);
      var below, next := place + 1, k + |m|;
      var st2 := LevelRun(s, st, m, place, k);
      RunUnfold(s, st, st2, pending, m, rest, place, below, k, next);
      LevelRunKeeps(s, st, m, place, k);
      CathunkRunKeeps(s, st2, rest, below, next);
      KeepsTrans(s.Crit(), st.trace, st2.trace, CathunkRun(s, st2, rest, below, next).trace, m, rest, pending);
    }
  }

  /** Unfolding one level of `CathunkRun`. */
  lemma RunUnfold(s: Setup, st: State, st2: State, pending: set<Routine>, m: set<Routine>, rest: set<Routine>, place: int, below: int, k: int, next: int)
    requires s.Finishes() && Pending(s, pending, place) && pending != {}
    requires m == s.ReachedAt(pending, place) && rest == s.StillBelow(pending, place)
    requires below == place + 1 && next == k + |m| && st2 == LevelRun(s, st, m, place, k)
    ensures place <= TableBound(s.places) && m <= pending && rest <= pending && Pending(s, rest, below)
    ensures CathunkRun(s, st, pending, place, k) == CathunkRun(s, st2, rest, below, next)
  {
    PendingBound(s, pending, place);
    assert Without(pending, m, rest);
    PendingRestBelow(s, pending, m, rest, place, below);
    RunStepIs(s, st, pending, m, rest, place, k, next);
    StepRunIs(s, st, st2, pending, m, rest, place, below, k, next);
  }

  /** `PendingRest` with the next level given by name. */
  lemma PendingRestBelow(s: Setup, pending: set<Routine>, m: set<Routine>, rest: set<Routine>, place: int, below: int)
    requires Pending(s, pending, place) && m == s.ReachedAt(pending, place) && Without(pending, m, rest)
    requires below == place + 1
    ensures m <= pending && Pending(s, rest, below)
  {
    PendingRest(s, pending, m, rest, place);
  }

  /** A non-empty pending set takes one step of the walk. */
  lemma RunStepIs(s: Setup, st: State, pending: set<Routine>, m: set<Routine>, rest: set<Routine>, place: int, k: int, next: int)
    requires s.Finishes() && Pending(s, pending, place) && pending != {} && place <= TableBound(s.places)
    requires m == s.ReachedAt(pending, place) && rest == s.StillBelow(pending, place)
    requires Without(pending, m, rest) && next == k + |m|
    ensures CathunkRun(s, st, pending, place, k) == CathunkRunStep(s, st, pending, m, rest, place, k, next)
  {
  }

  /** A non-empty pending set hands out the places of one step. */
  lemma FinalStepIs(s: Setup, pending: set<Routine>, m: set<Routine>, rest: set<Routine>, place: int, k: int, next: int)
    requires s.Finishes() && Pending(s, pending, place) && pending != {} && place <= TableBound(s.places)
    requires m == s.ReachedAt(pending, place) && rest == s.StillBelow(pending, place)
    requires Without(pending, m, rest) && next == k + |m|
    ensures CathunkFinal(s, pending, place, k) == CathunkStep(s, pending, m, rest, place, k, next)
  {
  }

  /** The step goes on with the rest one level down. */
  lemma StepRunIs(s: Setup, st: State, st2: State, pending: set<Routine>, m: set<Routine>, rest: set<Routine>, place: int, below: int, k: int, next: int)
    requires s.Finishes() && Pending(s, pending, place) && place <= TableBound(s.places)
    requires m == s.ReachedAt(pending, place) && Without(pending, m, rest) && next == k + |m|
    requires below == place + 1 && Pending(s, rest, below) && st2 == LevelRun(s, st, m, place, k)
    ensures CathunkRunStep(s, st, pending, m, rest, place, k, next) == CathunkRun(s, st2, rest, below, next)
  {
    assert CathunkRunStep(s, st, pending, m, rest, place, k, next) == CathunkRun(s, st2, rest, place + 1, next);
  }

  /** The trace the constructor leaves has a row for every routine, and every
      cell shows the routine's true tally at its level, with the true rank
      sum where the sum phase compared it. */
  lemma RankedTraceTrue(s: Setup)
    requires s.Finishes()
    ensures Ranked(s).trace.Keys == s.places.Keys
    ensures TraceTrue(s.Crit(), Ranked(s).trace)
  {
    FillTraceTrue(s);
    CathunkRunKeeps(s, State(FillTrace(s), map[]), s.places.Keys, 1, 1);
  }

  // ---------------------------------------------------------------------------
  // Everybody gets a place of their own.

  lemma LevelPlacement(s: Setup, m: set<Routine>, place: int, k: int)
    requires s.Valid() && m <= s.places.Keys
    ensures IsPlacement(LevelFinal(s, m, place, k), m, k)
  {
    if |m| <= 1 {
      SinglePlacement(m, k);
    } else {
      CritValid(s);
      TiesPlacement(s.Crit(), m, place, k);
    }
  }

  lemma {:induction false} CathunkPlacement(s: Setup, pending: set<Routine>, place: int, k: int)
    requires s.Valid() && Pending(s, pending, place)
    ensures IsPlacement(CathunkFinal(s, pending, place, k), pending, k)
    decreases TableBound(s.places) + 1 - place
  {
    if pending != {} {
      PendingBound(s, pending, place);
      var m, rest := s.ReachedAt(pending, place), s.StillBelow(pending, place);
      var below, next := place + 1, k + |m|;
      PendingRest(s, pending, m, rest, place);
      CathunkPlacement(s, rest, below, next);
      StepJoin(s, pending, m, rest, place, below, k, next);
    }
  }

  /** Unfolding one level of `CathunkFinal`. */
  lemma FinalUnfold(s: Setup, pending: set<Routine>, m: set<Routine>, rest: set<Routine>, place: int, below: int, k: int, next: int)
    requires s.Finishes() && Pending(s, pending, place) && pending != {}
    requires m == s.ReachedAt(pending, place) && rest == s.StillBelow(pending, place)
    requires below == place + 1 && next == k + |m|
    ensures m <= pending && Without(pending, m, rest) && Pending(s, rest, below)
    ensures CathunkFinal(s, pending, place, k) == LevelFinal(s, m, place, k) + CathunkFinal(s, rest, below, next)
  {
    PendingBound(s, pending, place);
    PendingRest(s, pending, m, rest, place);
  }

  /** One level of `__cathunk` hands out a placement when the levels below do. */
  lemma StepJoin(s: Setup, pending: set<Routine>, m: set<Routine>, rest: set<Routine>, place: int, below: int, k: int, next: int)
    requires s.Valid() && Pending(s, pending, place) && pending != {}
    requires m == s.ReachedAt(pending, place) && rest == s.StillBelow(pending, place)
    requires below == place + 1 && next == k + |m| && Pending(s, rest, below)
    ensures IsPlacement(CathunkFinal(s, rest, below, next), rest, next) ==>
            IsPlacement(CathunkFinal(s, pending, place, k), pending, k)
  {
    FinalUnfold(s, pending, m, rest, place, below, k, next);
    LevelPlacement(s, m, place, k);
    StepPlacement(LevelFinal(s, m, place, k), m, CathunkFinal(s, rest, below, next), rest, pending, k, next);
  }

  /** The places of one level and those below it make a placement of all. */
  lemma StepPlacement(a: map<Routine, int>, m: set<Routine>, b: map<Routine, int>, rest: set<Routine>, g: set<Routine>, k: int, next: int)
    requires m <= g && Without(g, m, rest) && next == k + |m|
    ensures IsPlacement(a, m, k) && IsPlacement(b, rest, next) ==> IsPlacement(a + b, g, k)
  {
    if IsPlacement(a, m, k) && IsPlacement(b, rest, next) {
      assert rest == g - m by {
        forall r ensures r in rest <==> r in g - m {
        }
      }
      SplitPlacement(a, m, b, g, k);
    }
  }

  /** The routines take the places 1 .. N, each its own. */
  lemma FinalIsRanking(s: Setup)
    requires s.Valid()
    ensures IsPlacement(FinalPlaces(s), s.places.Keys, 1)
  {
    CathunkPlacement(s, s.places.Keys, 1, 1);
  }



  // ---------------------------------------------------------------------------
  // Each routine's place is decided by the group it reaches the majority with.

  /** The routines that have not reached the majority at a level above `place`. */
  ghost function PendingAt(s: Setup, place: int): set<Routine>
  {
    set r | r in s.places && s.NotReachedBefore(r, place)
  }

  /** The routines that first reach the majority at `place`. */
  ghost function GroupAt(s: Setup, place: int): set<Routine>
  {
    s.ReachedAt(PendingAt(s, place), place)
  }

  /** The first place left for the group of `place`: every routine that
      reached the majority at a level above has taken one. */
  ghost function StartAt(s: Setup, place: int): int
  {
    |s.places.Keys| + 1 - |PendingAt(s, place)|
  }

  lemma PendingAtPending(s: Setup, place: int)
    requires place >= 1
    ensures Pending(s, PendingAt(s, place), place)
  {
  }

  /** Going one level down, the pending routines lose exactly the group of the level. */
  lemma PendingAtNext(s: Setup, pending: set<Routine>, m: set<Routine>, rest: set<Routine>, place: int)
    requires place >= 1 && pending == PendingAt(s, place)
    requires m == s.ReachedAt(pending, place) && rest == s.StillBelow(pending, place)
    ensures m == GroupAt(s, place) && rest == PendingAt(s, place + 1)
    ensures pending == m + rest && m !! rest
    ensures |rest| == |pending| - |m|
  {
    forall r | r in s.places
      ensures r in rest <==> s.NotReachedBefore(r, place + 1)
    {
      NextPending(s, r, place);
    }
    assert rest == PendingAt(s, place + 1);
    assert m !! rest && pending == m + rest;
    DisjointCard(m, rest);
  }

  /** A routine pending at `place` that first reaches the majority at a
      later level `p` is still pending one level down. */
  lemma StaysPending(s: Setup, r: Routine, place: int, p: int)
    requires r in s.places && 1 <= place < p && s.NotReachedBefore(r, p)
    ensures s.CountAt(r, place) < s.majority
  {
    if s.CountAt(r, place) >= s.majority {
      StaysReached(s, r, place, p - 1);
    }
  }

  /** `__cathunk` started at `place` gives a routine `r` first reaching the
      majority at level `p` the place its group hands it at `p`. */
  lemma {:induction false} CathunkByLevel(s: Setup, pending: set<Routine>, place: int, k: int, r: Routine, p: int)
    requires s.Valid() && place >= 1 && pending == PendingAt(s, place) && k == StartAt(s, place)
    requires r in pending && place <= p && s.NotReachedBefore(r, p) && s.CountAt(r, p) >= s.majority
    ensures Pending(s, pending, place) && r in GroupAt(s, p)
    ensures LevelKey(s, r, p)
    ensures r in CathunkFinal(s, pending, place, k)
    ensures CathunkFinal(s, pending, place, k)[r] == LevelFinal(s, GroupAt(s, p), p, StartAt(s, p))[r]
    decreases p - place
  {
    var m, rest := s.ReachedAt(pending, place), s.StillBelow(pending, place);
    var below, next := place + 1, k + |m|;
    ExactUnfold(s, pending, m, rest, place, below, k, next);
    if place == p {
      ByLevelHere(s, m, rest, place, below, k, next, r);
    } else {
      StaysPending(s, r, place, p);
      CathunkByLevel(s, rest, below, next, r, p);
      MergeRight(LevelFinal(s, m, place, k), CathunkFinal(s, rest, below, next), r);
    }
  }

  /** One level of `__cathunk` from the exact pending set of its level. */
  lemma ExactUnfold(s: Setup, pending: set<Routine>, m: set<Routine>, rest: set<Routine>, place: int, below: int, k: int, next: int)
    requires s.Finishes() && place >= 1 && pending == PendingAt(s, place) && pending != {}
    requires m == s.ReachedAt(pending, place) && rest == s.StillBelow(pending, place)
    requires below == place + 1 && next == k + |m|
    ensures Pending(s, pending, place) && Pending(s, rest, below)
    ensures m == GroupAt(s, place) && rest == PendingAt(s, below)
    ensures k == StartAt(s, place) ==> next == StartAt(s, below)
    ensures CathunkFinal(s, pending, place, k) == LevelFinal(s, m, place, k) + CathunkFinal(s, rest, below, next)
  {
    PendingAtPending(s, place);
    FinalUnfold(s, pending, m, rest, place, below, k, next);
    PendingAtNext(s, pending, m, rest, place);
  }

  /** `r` is placed by the level `p` group. */
  ghost predicate LevelKey(s: Setup, r: Routine, p: int)
  {
    p >= 1 && GroupAt(s, p) <= s.places.Keys && r in LevelFinal(s, GroupAt(s, p), p, StartAt(s, p))
  }

  /** At its own level `r` takes the place its group hands it. */
  lemma ByLevelHere(s: Setup, m: set<Routine>, rest: set<Routine>, place: int, below: int, k: int, next: int, r: Routine)
    requires s.Valid() && place >= 1 && k == StartAt(s, place) && r in m
    requires m == GroupAt(s, place) && rest == PendingAt(s, below) && below == place + 1 && Pending(s, rest, below)
    ensures LevelKey(s, r, place)
    ensures r in LevelFinal(s, m, place, k) + CathunkFinal(s, rest, below, next)
    ensures (LevelFinal(s, m, place, k) + CathunkFinal(s, rest, below, next))[r] == LevelFinal(s, m, place, k)[r]
  {
    assert s.CountAt(r, place) >= s.majority;
    assert r !in rest;
    LevelPlacement(s, m, place, k);
    CathunkPlacement(s, rest, below, next);
    MergeLeft(LevelFinal(s, m, place, k), CathunkFinal(s, rest, below, next), r);
  }

  lemma MergeLeft(a: map<Routine, int>, b: map<Routine, int>, r: Routine)
    requires r in a && r !in b
    ensures r in a + b && (a + b)[r] == a[r]
  {
  }

  lemma MergeRight(a: map<Routine, int>, b: map<Routine, int>, r: Routine)
    requires r in b
    ensures r in a + b && (a + b)[r] == b[r]
  {
  }

  /** A routine with the majority at `p` first reached it at some level `f <= p`. */
  lemma {:induction false} FirstReach(s: Setup, r: Routine, p: int) returns (f: int)
    requires r in s.places && p >= 1 && s.CountAt(r, p) >= s.majority
    ensures 1 <= f <= p && s.NotReachedBefore(r, f) && s.CountAt(r, f) >= s.majority
    decreases p
  {
    if s.NotReachedBefore(r, p) {
      f := p;
    } else {
      f := FirstReach(s, r, p - 1);
    }
  }

  /** A routine short of the majority at `p` first reaches it at a later level. */
  lemma ReachLater(s: Setup, q: Routine, p: int) returns (f: int)
    requires s.Finishes() && q in s.places && p >= 1 && s.CountAt(q, p) < s.majority
    ensures p < f && s.NotReachedBefore(q, f) && s.CountAt(q, f) >= s.majority
  {
    var top := if TableBound(s.places) > p then TableBound(s.places) else p + 1;
    TallySaturates(s.places[q], top, s.Excluded());
    f := FirstReach(s, q, top);
    if f <= p {
      StaysReached(s, q, f, p);
    }
  }

  /** The group of a level takes the places right after those of the levels above. */
  lemma StartNext(s: Setup, p: int)
    requires p >= 1
    ensures StartAt(s, p + 1) == StartAt(s, p) + |GroupAt(s, p)|
  {
    var pending := PendingAt(s, p);
    PendingAtNext(s, pending, s.ReachedAt(pending, p), s.StillBelow(pending, p), p);
  }

  /** Later levels start at later places. */
  lemma StartMonotone(s: Setup, a: int, b: int)
    requires 1 <= a <= b
    ensures StartAt(s, a) <= StartAt(s, b)
  {
    forall r | r in PendingAt(s, b)
      ensures r in PendingAt(s, a)
    {
      if !s.NotReachedBefore(r, a) {
        NeverPendingAgain(s, r, a, b);
      }
    }
    SubsetCard(PendingAt(s, b), PendingAt(s, a));
  }

  /** The final place of a routine first reaching the majority at level `p`
      is the one its level's group hands it, within the block of places
      starting right after every routine that reached the majority earlier. */
  lemma FinalByLevel(s: Setup, r: Routine, p: int)
    requires s.Valid() && r in s.places && p >= 1
    requires s.NotReachedBefore(r, p) && s.CountAt(r, p) >= s.majority
    ensures r in GroupAt(s, p) && LevelKey(s, r, p) && r in FinalPlaces(s)
    ensures FinalPlaces(s)[r] == LevelFinal(s, GroupAt(s, p), p, StartAt(s, p))[r]
    ensures StartAt(s, p) <= FinalPlaces(s)[r] < StartAt(s, p) + |GroupAt(s, p)|
  {
    assert PendingAt(s, 1) == s.places.Keys;
    CathunkByLevel(s, s.places.Keys, 1, 1, r, p);
    LevelPlacement(s, GroupAt(s, p), p, StartAt(s, p));
  }

  /** The majority rule: a routine that has the majority at a level at which
      another has not is placed before it. */
  lemma MajorityOrder(s: Setup, r: Routine, q: Routine, p: int)
    requires s.Valid() && r in s.places && q in s.places && p >= 1
    requires s.CountAt(r, p) >= s.majority > s.CountAt(q, p)
    ensures PlacedBefore(FinalPlaces(s), r, q)
  {
    var fr := FirstReach(s, r, p);
    var fq := ReachLater(s, q, p);
    FinalByLevel(s, r, fr);
    FinalByLevel(s, q, fq);
    StartAfter(s, fr, fq);
  }

  /** The block of an earlier level ends before a later level's block begins. */
  lemma StartAfter(s: Setup, p: int, later: int)
    requires 1 <= p < later
    ensures StartAt(s, p) + |GroupAt(s, p)| <= StartAt(s, later)
  {
    var next := p + 1;
    StartNext(s, p);
    StartMonotone(s, next, later);
  }

  /** Two routines first reaching the majority at the same level keep the
      order their group's tie-breaks give them. */
  lemma LevelOrder(s: Setup, r: Routine, q: Routine, p: int)
    requires s.Valid() && r in s.places && q in s.places && 1 <= p
    requires s.NotReachedBefore(r, p) && s.CountAt(r, p) >= s.majority
    requires s.NotReachedBefore(q, p) && s.CountAt(q, p) >= s.majority
    requires PlacedBefore(TiesFinal(s.Crit(), GroupAt(s, p), p, StartAt(s, p)), r, q)
    ensures PlacedBefore(FinalPlaces(s), r, q)
  {
    FinalByLevel(s, r, p);
    FinalByLevel(s, q, p);
    SubsetCard({r, q}, GroupAt(s, p));
  }

  /** The sum rule between two routines first reaching the majority at the
      same level: the smaller rank sum at that level is placed first. */
  lemma SumOrder(s: Setup, r: Routine, q: Routine, p: int)
    requires s.Valid() && r in s.places && q in s.places && 1 <= p <= s.N()
    requires s.NotReachedBefore(r, p) && s.CountAt(r, p) >= s.majority
    requires s.NotReachedBefore(q, p) && s.CountAt(q, p) >= s.majority
    requires s.SumAt(r, p) < s.SumAt(q, p)
    ensures PlacedBefore(FinalPlaces(s), r, q)
  {
    assert r in GroupAt(s, p) && q in GroupAt(s, p);
    CritValid(s);
    TiesOrder(s.Crit(), GroupAt(s, p), p, StartAt(s, p), r, q);
    LevelOrder(s, r, q, p);
  }

  /** The count rule after a tie on the sum: of two routines first reaching
      the majority at `p` with the smallest rank sum of their group, one with
      the largest tally of that tie at `p + 1` is placed before one without. */
  lemma TieCountOrder(s: Setup, r: Routine, q: Routine, p: int)
    requires s.Valid() && r in s.places && q in s.places && 1 <= p && p + 1 <= s.N()
    requires s.NotReachedBefore(r, p) && s.CountAt(r, p) >= s.majority
    requires s.NotReachedBefore(q, p) && s.CountAt(q, p) >= s.majority
    requires r in s.Crit().SumTie(GroupAt(s, p), p) && q in s.Crit().SumTie(GroupAt(s, p), p)
    requires r in s.Crit().CountTie(s.Crit().SumTie(GroupAt(s, p), p), p + 1)
    requires q !in s.Crit().CountTie(s.Crit().SumTie(GroupAt(s, p), p), p + 1)
    ensures PlacedBefore(FinalPlaces(s), r, q)
  {
    var c := s.Crit();
    var tie := c.SumTie(GroupAt(s, p), p);
    CritValid(s);
    DownLeadersFirst(c, tie, p + 1, StartAt(s, p), r, q);
    SumTieKeepsOrder(c, GroupAt(s, p), p, StartAt(s, p), r, q);
    LevelOrder(s, r, q, p);
  }

}
