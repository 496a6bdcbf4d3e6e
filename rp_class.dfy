/** The class `Relative_Placements` of Relative_Placement.py: the constructor
    fills the trace table and walks the levels. Each method is proved to do
    to the object what the specification functions say. */
module RelativePlacementClass {
  import opened ScoreTable
  import opened Tally
  import opened Placement
  import opened Tiebreak
  import opened TiebreakRun
  import opened RelativePlacementSpec
  import opened Ranking

  // ---------------------------------------------------------------------------
  // Facts the winner searches rely on.

  /** The rank sums of the routines of `g` at `place`. */
  ghost function SumsOf(s: Setup, g: set<Routine>, place: int): map<Routine, int>
    requires g <= s.places.Keys
  {
    map r | r in g :: s.SumAt(r, place)
  }

  /** The tallies of the routines of `g` at `place`. */
  ghost function CountsOf(s: Setup, g: set<Routine>, place: int): map<Routine, int>
    requires g <= s.places.Keys
  {
    map r | r in g :: s.CountAt(r, place)
  }

  /** These are the rank sums the tie-breaks consult. */
  lemma SumsAre(s: Setup, g: set<Routine>, place: int)
    requires g <= s.places.Keys
    ensures s.Crit().Sums(g, place) == SumsOf(s, g, place)
  {
  }

  /** These are the tallies the tie-breaks consult. */
  lemma CountsAre(s: Setup, g: set<Routine>, place: int)
    requires g <= s.places.Keys
    ensures s.Crit().Counts(g, place) == CountsOf(s, g, place)
  {
  }

  // ---------------------------------------------------------------------------
  // The winner searches of `__ties` (smallest sum) and `__down` (largest
  // tally), over the values `v` of the routines compared so far.

  /** After comparing `done`: `winner` holds the best value `w`, and `tie` is
      empty when `winner` alone holds it, or else everyone holding it. */
  ghost predicate Searched(v: map<Routine, int>, done: set<Routine>, winner: Routine, w: int,
                           tie: set<Routine>, smallest: bool)
    requires done <= v.Keys
  {
    && winner in done && v[winner] == w
    && (forall x :: x in done ==> if smallest then w <= v[x] else v[x] <= w)
    && ((tie == {} && WithValue(done, v, w) == {winner})
        || (tie == WithValue(done, v, w) && winner in tie && tie != {winner}))
  }

  lemma SearchStart(v: map<Routine, int>, x: Routine, smallest: bool)
    requires x in v
    ensures Searched(v, {x}, x, v[x], {}, smallest)
  {
    WithValueAdd({}, v, x, v[x]);
  }

  /** A routine with a strictly better value becomes the lone winner. */
  lemma SearchBetter(v: map<Routine, int>, done: set<Routine>, winner: Routine, w: int,
                     tie: set<Routine>, smallest: bool, x: Routine)
    requires done <= v.Keys && x in v && Searched(v, done, winner, w, tie, smallest)
    requires if smallest then v[x] < w else v[x] > w
    ensures Searched(v, done + {x}, x, v[x], {}, smallest)
  {
    WithValueNone(done, v, v[x]);
    WithValueAdd(done, v, x, v[x]);
  }

  /** A routine with the same value joins the tie, with the winner. */
  lemma SearchEqual(v: map<Routine, int>, done: set<Routine>, winner: Routine, w: int,
                    tie: set<Routine>, smallest: bool, x: Routine)
    requires done <= v.Keys && x in v && x !in done && Searched(v, done, winner, w, tie, smallest)
    requires v[x] == w
    ensures Searched(v, done + {x}, winner, w, tie + {winner, x}, smallest)
  {
    WithValueAdd(done, v, x, w);
  }

  /** A routine with a worse value changes nothing. */
  lemma SearchWorse(v: map<Routine, int>, done: set<Routine>, winner: Routine, w: int,
                    tie: set<Routine>, smallest: bool, x: Routine)
    requires done <= v.Keys && x in v && Searched(v, done, winner, w, tie, smallest)
    requires if smallest then v[x] > w else v[x] < w
    ensures Searched(v, done + {x}, winner, w, tie, smallest)
  {
    WithValueAdd(done, v, x, w);
  }

  /** At the end of a search over all of `g` the winner-or-tie is the best group. */
  lemma SearchDone(v: map<Routine, int>, g: set<Routine>, winner: Routine, w: int,
                   tie: set<Routine>, smallest: bool)
    requires g <= v.Keys && Searched(v, g, winner, w, tie, smallest)
    ensures tie == {} || |tie| >= 2
    ensures (if tie == {} then {winner} else tie) == if smallest then MinGroup(g, v) else MaxGroup(g, v)
  {
    if tie != {} {
      NonEmptyHasMember(tie - {winner});
      var y :| y in tie - {winner};
      SubsetCard({winner, y}, tie);
    }
    if smallest {
      MinGroupIs(g, v, winner, w);
    } else {
      MaxGroupIs(g, v, winner, w);
    }
  }

  /** The sum phase's annotation of one routine's cell. */
  function Annotate(t: Trace, r: Routine, place: int, sum: int): Trace
  {
    if r in t then t[r := CompareRow(t[r], place, sum)] else t
  }

  /** The trace `t` with the cells at `place` of the routines of `a`
      annotated with their values `v`. */
  ghost function AnnotatedWith(t: Trace, v: map<Routine, int>, a: set<Routine>, place: int): Trace
    requires a <= v.Keys
  {
    map r | r in t :: if r in a then CompareRow(t[r], place, v[r]) else t[r]
  }

  /** Annotating one more routine extends the annotated set; annotating a
      routine twice changes nothing. */
  lemma AnnotateStep(t: Trace, v: map<Routine, int>, a: set<Routine>, x: Routine, place: int)
    requires a <= v.Keys && x in v
    ensures Annotate(AnnotatedWith(t, v, a, place), x, place, v[x]) == AnnotatedWith(t, v, a + {x}, place)
  {
  }

  /** The trace during a winner search over `v` that has compared `done`,
      having started from `first`: nothing is annotated until the first
      comparison, and after it every routine compared. */
  ghost function SearchTrace(t0: Trace, v: map<Routine, int>, done: set<Routine>, first: Routine, place: int): Trace
    requires done <= v.Keys
  {
    if done == {first} then t0 else AnnotatedWith(t0, v, done, place)
  }

  /** One comparison annotates the compared routine and the winner; the first
      winner's cell is annotated only at the first comparison. */
  lemma AnnotatePair(t0: Trace, v: map<Routine, int>, done: set<Routine>, first: Routine,
                     x: Routine, w: Routine, place: int)
    requires done <= v.Keys && x in v && x !in done && first in done && w in done
    requires done == {first} ==> w == first
    ensures Annotate(Annotate(SearchTrace(t0, v, done, first, place), x, place, v[x]), w, place, v[w])
         == SearchTrace(t0, v, done + {x}, first, place)
  {
    var a := if done == {first} then {} else done;
    AnnotateNone(t0, v, place);
    AnnotateStep(t0, v, a, x, place);
    AnnotateStep(t0, v, a + {x}, w, place);
    assert a + {x} + {w} == done + {x};
  }

  lemma AnnotateNone(t: Trace, v: map<Routine, int>, place: int)
    ensures AnnotatedWith(t, v, {}, place) == t
  {
  }

  /** Annotating with the rank sums is the sum phase's annotation. */
  lemma AnnotatedIsCompared(s: Setup, t: Trace, g: set<Routine>, place: int)
    requires g <= s.places.Keys
    ensures AnnotatedWith(t, SumsOf(s, g, place), g, place) == CompareAll(s.Crit(), t, g, place)
  {
  }

  /** The count phase's record of one routine's tally. */
  function Record(t: Trace, r: Routine, place: int, count: int): Trace
  {
    if r in t then t[r := t[r][place := Tallied(count)]] else t
  }

  /** The trace `t` with the cells at `place` of the routines of `a`
      overwritten by their tallies `v`. */
  ghost function TalliedWith(t: Trace, v: map<Routine, int>, a: set<Routine>, place: int): Trace
    requires a <= v.Keys
  {
    map r | r in t :: if r in a then t[r][place := Tallied(v[r])] else t[r]
  }

  lemma TallyStep(t: Trace, v: map<Routine, int>, a: set<Routine>, x: Routine, place: int)
    requires a <= v.Keys && x in v && x !in a
    ensures Record(TalliedWith(t, v, a, place), x, place, v[x]) == TalliedWith(t, v, a + {x}, place)
  {
  }

  /** Recording the tallies is the count phase's record. */
  lemma TalliedIsTallied(s: Setup, t: Trace, g: set<Routine>, place: int)
    requires g <= s.places.Keys
    ensures TalliedWith(t, CountsOf(s, g, place), g, place) == TallyAll(s.Crit(), t, g, place)
  {
  }

  /** The state of `__down`'s loop over `ties` with `todo` still to visit:
      those visited have their tally recorded, and after the first visit the
      search for the largest tally stands as `Searched` says. */
  ghost predicate CountPass(t: Trace, t0: Trace, v: map<Routine, int>, ties: set<Routine>, todo: set<Routine>,
                            first: bool, winner: Routine, w: int, tie: set<Routine>, place: int)
  {
    && ties <= v.Keys && todo <= ties && (first <==> todo == ties)
    && t == TalliedWith(t0, v, ties - todo, place)
    && (!first ==> Searched(v, ties - todo, winner, w, tie, false))
  }

  /** Visiting one more routine: its tally is recorded and the search moves
      on to the outcome of comparing it. */
  lemma CountPassStep(t: Trace, t0: Trace, v: map<Routine, int>, ties: set<Routine>, todo: set<Routine>, first: bool,
                      winner0: Routine, w0: int, tie0: set<Routine>,
                      x: Routine, winner: Routine, w: int, tie: set<Routine>, place: int)
    requires CountPass(t, t0, v, ties, todo, first, winner0, w0, tie0, place) && x in todo
    requires Searched(v, (ties - todo) + {x}, winner, w, tie, false)
    ensures CountPass(Record(t, x, place, v[x]), t0, v, ties, todo - {x}, false, winner, w, tie, place)
  {
    TallyStep(t0, v, ties - todo, x, place);
    assert ties - (todo - {x}) == (ties - todo) + {x};
  }

  // ---------------------------------------------------------------------------
  // `__chiefjudgetie`: a dict from head-judge rank to routine, read in
  // ascending rank order.

  /** The state of `__chiefjudgetie`'s second loop with the ranks `rest`
      still to read: the ranks read so far are the smallest, and (when the
      ranks are distinct) those routines hold consecutive places from
      `placement0` in head-judge order, `placement` being the next one. */
  ghost predicate ChiefPass(f: map<Routine, int>, f0: map<Routine, int>, g: set<Routine>, rank: map<Routine, int>,
                            byRank: map<int, Routine>, rest: set<int>, placement0: int, placement: int)
    requires g <= rank.Keys
  {
    && Indexed(rank, g, byRank)
    && Ascending(byRank, rest)
    && (DistinctRanks(g, rank) ==>
          && placement == placement0 + |PlacedBy(g, rank, rest)|
          && f == f0 + HeadPrefix(g, rank, PlacedBy(g, rank, rest), placement0))
  }

  /** Reading the smallest rank left and placing its routine next keeps the state. */
  lemma ChiefPassStep(f: map<Routine, int>, f0: map<Routine, int>, g: set<Routine>, rank: map<Routine, int>,
                      byRank: map<int, Routine>, rest: set<int>, placement0: int, placement: int, m: int)
    requires g <= rank.Keys && ChiefPass(f, f0, g, rank, byRank, rest, placement0, placement)
    requires m in rest && forall q :: q in rest ==> m <= q
    ensures ChiefPass(f[byRank[m] := placement], f0, g, rank, byRank, rest - {m}, placement0, placement + 1)
  {
    if DistinctRanks(g, rank) {
      ChiefStep(g, rank, byRank, rest, m);
      HeadPrefixStep(f0, g, rank, PlacedBy(g, rank, rest), byRank[m], placement0);
    } else {
      AscendingStep(byRank, rest, m);
    }
  }

  // ---------------------------------------------------------------------------
  // The recursion of `__ties` and `__down`.

  /** A group of one is that routine alone. */
  lemma Singleton(g: set<Routine>, x: Routine)
    requires |g| == 1 && x in g
    ensures g == {x}
  {
    DifferenceCard(g, {x});
    assert g - {x} == {};
  }

  /** Taking a non-empty group out leaves fewer routines. */
  lemma SplitSmaller(g: set<Routine>, tie: set<Routine>)
    requires tie <= g && tie != {}
    ensures |g - tie| < |g|
  {
    NonEmptyHasMember(tie);
    var x :| x in tie;
    assert x !in g - tie;
    SubsetCard(g - tie, g);
  }

  // ---------------------------------------------------------------------------
  // `__fill_columns`: one level, routine by routine.

  /** One routine's tally at `place` goes into its row; its row is created
      when it has none yet. */
  function RecordOne(t: Trace, r: Routine, place: int, count: int): Trace
  {
    if r in t then t[r := t[r][place := Tallied(count)]] else t[r := map[place := Tallied(count)]]
  }

  /** The state of the loop over `pending` with `todo` still to visit: the
      routines visited have their tally recorded, and those of them reaching
      the majority are gone from `rest`. */
  ghost predicate FillPass(s: Setup, t: Trace, t0: Trace, pending: set<Routine>, todo: set<Routine>,
                           rest: set<Routine>, place: int)
  {
    && pending <= s.places.Keys && todo <= pending
    && t == RecordAll(s, t0, pending - todo, place)
    && rest == pending - s.ReachedAt(pending - todo, place)
  }

  /** Nothing visited yet: nothing recorded, nobody gone. */
  lemma FillPassStart(s: Setup, t0: Trace, pending: set<Routine>, place: int)
    requires pending <= s.places.Keys
    ensures FillPass(s, t0, t0, pending, pending, pending, place)
  {
    assert RecordAll(s, t0, {}, place) == t0;
  }

  /** Visiting one more routine records its tally and drops it from `rest`
      when it reaches the majority. */
  lemma FillPassStep(s: Setup, t: Trace, t0: Trace, pending: set<Routine>, todo: set<Routine>,
                     rest: set<Routine>, place: int, x: Routine)
    requires FillPass(s, t, t0, pending, todo, rest, place) && x in todo
    ensures FillPass(s, RecordOne(t, x, place, s.CountAt(x, place)), t0, pending, todo - {x},
                     if s.CountAt(x, place) >= s.majority then rest - {x} else rest, place)
  {
    var done := pending - todo;
    assert pending - (todo - {x}) == done + {x};
    assert s.ReachedAt(done + {x}, place)
        == s.ReachedAt(done, place) + (if s.CountAt(x, place) >= s.majority then {x} else {});
    RecordOneMore(s, t0, done, place, x);
  }

  /** Recording one more routine's tally extends the pass by that routine. */
  lemma RecordOneMore(s: Setup, t0: Trace, done: set<Routine>, place: int, x: Routine)
    requires done <= s.places.Keys && x in s.places && x !in done
    ensures RecordOne(RecordAll(s, t0, done, place), x, place, s.CountAt(x, place)) == RecordAll(s, t0, done + {x}, place)
  {
    var t := RecordAll(s, t0, done, place);
    var u := RecordOne(t, x, place, s.CountAt(x, place));
    var v := RecordAll(s, t0, done + {x}, place);
    assert u.Keys == v.Keys;
    forall r | r in u.Keys
      ensures u[r] == v[r]
    {
      if r == x {
        assert RowOf(t, x) == RowOf(t0, x);
      }
    }
  }

  // ---------------------------------------------------------------------------
  // `__cathunk`: the routines reaching the majority at a level.

  /** Every row of `t` has a cell at `place`. */
  ghost predicate HasLevel(t: Trace, place: int)
  {
    forall r :: r in t ==> place in t[r]
  }

  /** The routines of `g` whose cell at `place` reaches `majority`. */
  ghost function Reaching(t: Trace, g: set<Routine>, place: int, majority: int): set<Routine>
    requires g <= t.Keys && HasLevel(t, place)
  {
    set r | r in g && t[r][place].count >= majority
  }

  /** The state of the loop over `t` with `todo` still to visit: those
      visited and reaching the majority have moved from `rest` to
      `majorities`. */
  ghost predicate SplitPass(t: Trace, todo: set<Routine>, place: int, majority: int,
                            majorities: set<Routine>, rest: Trace)
  {
    && HasLevel(t, place) && todo <= t.Keys
    && majorities == Reaching(t, t.Keys - todo, place, majority)
    && rest == t - majorities
  }

  lemma SplitPassStart(t: Trace, place: int, majority: int)
    requires HasLevel(t, place)
    ensures SplitPass(t, t.Keys, place, majority, {}, t)
  {
    assert t - {} == t;
  }

  lemma SplitPassStep(t: Trace, todo: set<Routine>, place: int, majority: int,
                      majorities: set<Routine>, rest: Trace, x: Routine)
    requires SplitPass(t, todo, place, majority, majorities, rest) && x in todo
    ensures t[x][place].count >= majority ==>
              SplitPass(t, todo - {x}, place, majority, majorities + {x}, rest - {x})
    ensures t[x][place].count < majority ==>
              SplitPass(t, todo - {x}, place, majority, majorities, rest)
  {
    var done := t.Keys - todo;
    assert t.Keys - (todo - {x}) == done + {x};
    assert Reaching(t, done + {x}, place, majority)
        == Reaching(t, done, place, majority) + (if t[x][place].count >= majority then {x} else {});
    if t[x][place].count >= majority {
      assert t - (majorities + {x}) == (t - majorities) - {x};
    }
  }

  /** Rows as the column filling left them: a routine still pending has its
      tally in its cell, and reaching the majority there is reaching it in
      the table. */
  lemma ReachingIsReached(s: Setup, t: Trace, place: int)
    requires s.Finishes() && Pending(s, t.Keys, place) && t.Keys != {}
    requires forall r :: r in t ==> t[r] == FilledRow(s, r)
    ensures HasLevel(t, place)
    ensures Reaching(t, t.Keys, place, s.majority) == s.ReachedAt(t.Keys, place)
    ensures (t - s.ReachedAt(t.Keys, place)).Keys == s.StillBelow(t.Keys, place)
  {
    PendingBound(s, t.Keys, place);
    forall r | r in t
      ensures place in t[r] && t[r][place] == Tallied(s.CountAt(r, place))
    {
    }
  }

  /** A level at which nobody reaches the majority leaves the state as it
      is and passes everyone one level down. */
  lemma LevelNone(s: Setup, st: State, pending: set<Routine>, m: set<Routine>, rest: set<Routine>, place: int, k: int)
    requires s.Finishes() && Pending(s, pending, place) && pending != {} && |m| == 0
    requires m == s.ReachedAt(pending, place) && rest == s.StillBelow(pending, place)
    ensures place <= TableBound(s.places) && Pending(s, rest, place + 1)
    ensures CathunkRun(s, st, pending, place, k) == CathunkRun(s, st, rest, place + 1, k)
  {
    AwardNone(st, k);
    RunUnfold(s, st, st, pending, m, rest, place, place + 1, k, k);
  }

  /** A level at which one routine reaches the majority gives it the next
      place and passes everyone else one level down. */
  lemma LevelOne(s: Setup, st: State, pending: set<Routine>, m: set<Routine>, rest: set<Routine>, place: int, k: int)
    requires s.Finishes() && Pending(s, pending, place) && pending != {} && |m| == 1
    requires m == s.ReachedAt(pending, place) && rest == s.StillBelow(pending, place)
    ensures place <= TableBound(s.places) && Pending(s, rest, place + 1) && m <= s.places.Keys
    ensures CathunkRun(s, st, pending, place, k) == CathunkRun(s, Award(st, m, k), rest, place + 1, k + 1)
  {
    RunUnfold(s, st, Award(st, m, k), pending, m, rest, place, place + 1, k, k + 1);
  }

  /** A group of several goes to the tie-breaks. */
  lemma LevelTied(s: Setup, st: State, m: set<Routine>, place: int, k: int)
    requires m <= s.places.Keys && |m| >= 2
    ensures LevelRun(s, st, m, place, k) == TiesRun(s.Crit(), st, m, place, k)
  {
  }

  // ---------------------------------------------------------------------------

  class RelativePlacements {
    /** Routine -> level -> the cell of the trace table. */
    var relativePlacements: Trace
    /** Routine -> its final place. */
    var finalPlacements: map<Routine, int>
    const places: Table
    const headJudge: nat
    const majority: int
    const includeHeadJudge: bool

    /** The constructor's arguments. */
    function Config(): Setup
    {
      Setup(places, headJudge, majority, includeHeadJudge)
    }

    /** What the tie-breaks consult. */
    ghost function Crit(): Criteria
    {
      Config().Crit()
    }

    /** The part of the object the walk changes. */
    ghost function St(): State
      reads this
    {
      State(relativePlacements, finalPlacements)
    }

    /** `__init__`: records its arguments and ranks the table. The object
        ends in the state `Ranked`: every routine has its own place in
        1 .. N, and the trace shows the true tallies and rank sums. */
    constructor (table: Table, headjudge: nat, majorityNeeded: int, withHeadJudge: bool)
      requires Setup(table, headjudge, majorityNeeded, withHeadJudge).Valid()
      ensures places == table && headJudge == headjudge && majority == majorityNeeded && includeHeadJudge == withHeadJudge
      ensures St() == Ranked(Config())
      ensures finalPlacements == FinalPlaces(Config())
      ensures IsPlacement(finalPlacements, places.Keys, 1)
      ensures relativePlacements.Keys == places.Keys && TraceTrue(Crit(), relativePlacements)
    {
      places, headJudge, majority, includeHeadJudge := table, headjudge, majorityNeeded, withHeadJudge;
      new;
      Rank();
      RankedFinal(Config());
      FinalIsRanking(Config());
      RankedTraceTrue(Config());
    }

    /** The two calls of `__init__`: the column filling from level 1 on an
        empty trace, then the walk from level 1 handing out places from 1. */
    method Rank()
      requires Config().Valid()
      modifies this
      ensures St() == Ranked(Config())
    {
      relativePlacements, finalPlacements := map[], map[];
      FillStart(Config());
      FillColumns(places.Keys, 1);
      assert relativePlacements.Keys == places.Keys;
      var remaining := Cathunk(relativePlacements, 1, 1);
    }

    /** `__count(place, scores)`: the judges ranking at or better than
        `place`, the head judge left out unless `includeHeadJudge`. */
    method CountPlaces(place: int, scores: Row) returns (numPlaces: nat)
      ensures numPlaces == Count(scores, place, Config().Excluded())
      ensures numPlaces <= |scores|
    {
      numPlaces := Count(scores, place, None);
      if !includeHeadJudge {
        numPlaces := 0;
        for j := 0 to |scores|
          invariant numPlaces == CountPrefix(scores, j, place, Some(headJudge))
        {
          if scores[j] <= place && j != headJudge {
            numPlaces := numPlaces + 1;
          }
        }
        CountIsLoopTally(scores, place, Some(headJudge));
      }
      TallyAtMostCounted(scores, place, Config().Excluded());
    }

    /** `__sum(place, scores)`: the sum of the ranks `CountPlaces` counts. */
    method SumPlaces(place: int, scores: Row) returns (numPlaces: int)
      ensures numPlaces == RankSum(scores, place, Config().Excluded())
    {
      numPlaces := RankSum(scores, place, None);
      if !includeHeadJudge {
        numPlaces := 0;
        for j := 0 to |scores|
          invariant numPlaces == SumPrefix(scores, j, place, Some(headJudge))
        {
          if scores[j] <= place && j != headJudge {
            numPlaces := numPlaces + scores[j];
          }
        }
      }
    }

    /** `__ties`' comparison of the routine visited, with rank sum
        `currentSum`, against the winner so far: a smaller sum takes over and
        clears the tie, an equal one joins the tie with the winner. */
    method SumCompare(ghost sums: map<Routine, int>, ghost done: set<Routine>, routine: Routine, currentSum: int,
                      winner0: Routine, winnerSum0: int, tie0: set<Routine>)
      returns (winner: Routine, winnerSum: int, tie: set<Routine>)
      requires done <= sums.Keys && routine in sums && routine !in done && sums[routine] == currentSum
      requires Searched(sums, done, winner0, winnerSum0, tie0, true)
      ensures Searched(sums, done + {routine}, winner, winnerSum, tie, true)
    {
      winner, winnerSum, tie := winner0, winnerSum0, tie0;
      if currentSum < winnerSum {
        SearchBetter(sums, done, winner, winnerSum, tie, true, routine);
        winner, winnerSum := routine, currentSum;
        tie := {};
      } else if currentSum == winnerSum {
        SearchEqual(sums, done, winner, winnerSum, tie, true, routine);
        tie := tie + {winner, routine};
      } else {
        SearchWorse(sums, done, winner, winnerSum, tie, true, routine);
      }
    }

    /** `__down`'s comparison of the routine visited, with tally
        `currentCount`, against the winner so far: an equal tally joins the
        tie with the winner, a larger one takes over and clears the tie. */
    method CountCompare(ghost counts: map<Routine, int>, ghost done: set<Routine>, routine: Routine, currentCount: int,
                        winner0: Routine, winnerCount0: int, tie0: set<Routine>)
      returns (winner: Routine, winnerCount: int, tie: set<Routine>)
      requires done <= counts.Keys && routine in counts && routine !in done && counts[routine] == currentCount
      requires Searched(counts, done, winner0, winnerCount0, tie0, false)
      ensures Searched(counts, done + {routine}, winner, winnerCount, tie, false)
    {
      winner, winnerCount, tie := winner0, winnerCount0, tie0;
      if currentCount == winnerCount {
        SearchEqual(counts, done, winner, winnerCount, tie, false, routine);
        tie := tie + {winner, routine};
      }
      if currentCount > winnerCount {
        SearchBetter(counts, done, winner, winnerCount, tie, false, routine);
        winner, winnerCount := routine, currentCount;
        tie := {};
      } else if currentCount < winnerCount {
        SearchWorse(counts, done, winner, winnerCount, tie, false, routine);
      }
    }

    /** The state of `__ties`' winner search at `place` with `todo` still to
        visit, the search having started from `first`. */
    ghost predicate SumSearch(ties: set<Routine>, place: int, t0: Trace, todo: set<Routine>, first: Routine,
                              winner: Routine, winnerSum: int, tie: set<Routine>)
      reads this
    {
      && ties <= places.Keys && todo <= ties && first in ties - todo
      && relativePlacements == SearchTrace(t0, SumsOf(Config(), ties, place), ties - todo, first, place)
      && Searched(SumsOf(Config(), ties, place), ties - todo, winner, winnerSum, tie, true)
    }

    /** One pass of the loop of `__ties`' winner search, after the first:
        the routine visited and the current winner have their cells
        annotated with their rank sums, and the search takes in the routine. */
    method CompareSums(ghost ties: set<Routine>, place: int, ghost t0: Trace, todo0: set<Routine>, ghost first: Routine,
                       winner0: Routine, winnerSum0: int, tie0: set<Routine>)
      returns (todo: set<Routine>, winner: Routine, winnerSum: int, tie: set<Routine>)
      requires todo0 != {} && SumSearch(ties, place, t0, todo0, first, winner0, winnerSum0, tie0)
      modifies this
      ensures SumSearch(ties, place, t0, todo, first, winner, winnerSum, tie)
      ensures finalPlacements == old(finalPlacements)
      ensures |todo| < |todo0|
    {
      ghost var sums := SumsOf(Config(), ties, place);
      ghost var done := ties - todo0;
      NonEmptyHasMember(todo0);
      var routine :| routine in todo0;
      var currentSum := SumPlaces(place, places[routine]);
      AnnotatePair(t0, sums, done, first, routine, winner0, place);
      relativePlacements := Annotate(relativePlacements, routine, place, currentSum);
      relativePlacements := Annotate(relativePlacements, winner0, place, winnerSum0);
      winner, winnerSum, tie := SumCompare(sums, done, routine, currentSum, winner0, winnerSum0, tie0);
      todo := todo0 - {routine};
      assert ties - todo == done + {routine};
    }

    /** The winner search of `__ties` at `place`: every routine compared has
        its cell annotated with its rank sum; `tie` is the routines sharing
        the smallest sum when there are two or more, and empty when `winner`
        alone has it. */
    method SumWinners(ties: set<Routine>, place: int) returns (winner: Routine, tie: set<Routine>)
      requires ties <= places.Keys && |ties| >= 2
      modifies this
      ensures relativePlacements == AnnotatedWith(old(relativePlacements), SumsOf(Config(), ties, place), ties, place)
      ensures finalPlacements == old(finalPlacements)
      ensures tie == {} || |tie| >= 2
      ensures (if tie == {} then {winner} else tie) == MinGroup(ties, SumsOf(Config(), ties, place))
    {
      ghost var sums := SumsOf(Config(), ties, place);
      ghost var t0 := relativePlacements;
      // The first routine visited starts as the winner (`winner == None`).
      NonEmptyHasMember(ties);
      winner :| winner in ties;
      var winnerSum := SumPlaces(place, places[winner]);
      SearchStart(sums, winner, true);
      tie := {};
      var todo := ties - {winner};
      ghost var first := winner;
      assert ties - todo == {first};
      while todo != {}
        invariant SumSearch(ties, place, t0, todo, first, winner, winnerSum, tie)
        invariant finalPlacements == old(finalPlacements)
        decreases |todo|
      {
        todo, winner, winnerSum, tie := CompareSums(ties, place, t0, todo, first, winner, winnerSum, tie);
      }
      assert ties - todo == ties;
      assert ties != {first} by {
        assert |ties| != |{first}|;
      }
      SearchDone(sums, ties, winner, winnerSum, tie, true);
    }

    /** The state of `__down`'s winner search at `place` with `todo` still to
        visit; `first` holds until a routine is visited. */
    ghost predicate CountSearch(ties: set<Routine>, place: int, t0: Trace, todo: set<Routine>, first: bool,
                                winner: Routine, winnerCount: int, tie: set<Routine>)
      reads this
    {
      && ties <= places.Keys
      && CountPass(relativePlacements, t0, CountsOf(Config(), ties, place), ties, todo, first, winner, winnerCount, tie, place)
    }

    method VisitCount(ghost ties: set<Routine>, place: int, ghost t0: Trace, todo0: set<Routine>, first: bool,
                      winner0: Routine, winnerCount0: int, tie0: set<Routine>)
      returns (todo: set<Routine>, winner: Routine, winnerCount: int, tie: set<Routine>)
      requires todo0 != {} && CountSearch(ties, place, t0, todo0, first, winner0, winnerCount0, tie0)
      modifies this
      ensures CountSearch(ties, place, t0, todo, false, winner, winnerCount, tie)
      ensures finalPlacements == old(finalPlacements)
      ensures |todo| < |todo0|
    {
      ghost var counts := CountsOf(Config(), ties, place);
      ghost var done := ties - todo0;
      NonEmptyHasMember(todo0);
      var routine :| routine in todo0;
      var count := CountPlaces(place, places[routine]);
      if first {
        assert done + {routine} == {routine};
        SearchStart(counts, routine, false);
        winner, winnerCount, tie := routine, count, {};
      } else {
        winner, winnerCount, tie := CountCompare(counts, done, routine, count, winner0, winnerCount0, tie0);
      }
      CountPassStep(relativePlacements, t0, counts, ties, todo0, first, winner0, winnerCount0, tie0,
                    routine, winner, winnerCount, tie, place);
      relativePlacements := Record(relativePlacements, routine, place, count);
      todo := todo0 - {routine};
    }

    /** The winner search of `__down` at `place`: every routine's tally is
        recorded in its cell; `tie` is the routines sharing the largest tally
        when there are two or more, and empty when `winner` alone has it. */
    method CountWinners(ties: set<Routine>, place: int) returns (winner: Routine, tie: set<Routine>)
      requires ties <= places.Keys && |ties| >= 2
      modifies this
      ensures relativePlacements == TalliedWith(old(relativePlacements), CountsOf(Config(), ties, place), ties, place)
      ensures finalPlacements == old(finalPlacements)
      ensures tie == {} || |tie| >= 2
      ensures (if tie == {} then {winner} else tie) == MaxGroup(ties, CountsOf(Config(), ties, place))
    {
      ghost var t0 := relativePlacements;
      assert TalliedWith(t0, CountsOf(Config(), ties, place), {}, place) == t0;
      var first := true;
      var winnerCount := 0;
      winner, tie := 0, {};
      var todo := ties;
      while todo != {}
        invariant CountSearch(ties, place, t0, todo, first, winner, winnerCount, tie)
        invariant finalPlacements == old(finalPlacements)
        decreases |todo|
      {
        todo, winner, winnerCount, tie := VisitCount(ties, place, t0, todo, first, winner, winnerCount, tie);
        first := false;
      }
      assert ties - todo == ties;
      SearchDone(CountsOf(Config(), ties, place), ties, winner, winnerCount, tie, false);
    }

    /** The first loop of `__chiefjudgetie`: the dict from each routine's
        head-judge rank to a routine of `ties` with that rank. */
    method HeadJudgeScores(ties: set<Routine>) returns (headJudgeScores: map<int, Routine>)
      requires ties <= places.Keys && forall r :: r in ties ==> headJudge < |places[r]|
      ensures Indexed(Config().HeadRanks(), ties, headJudgeScores)
    {
      ghost var rank := Config().HeadRanks();
      headJudgeScores := map[];
      var todo := ties;
      while todo != {}
        invariant todo <= ties && Indexed(rank, ties - todo, headJudgeScores)
        decreases |todo|
      {
        NonEmptyHasMember(todo);
        var routine :| routine in todo;
        var headJudgeScore := places[routine][headJudge];
        IndexStep(rank, ties - todo, headJudgeScores, routine);
        headJudgeScores := headJudgeScores[headJudgeScore := routine];
        assert ties - (todo - {routine}) == (ties - todo) + {routine};
        todo := todo - {routine};
      }
      assert ties - todo == ties;
    }

    /** The second loop of `__chiefjudgetie` with the ranks `rest` still to
        read: under distinct ranks, the routines read so far hold their places
        in the head judge's order and `placement` is the next place. */
    ghost predicate ChiefState(ties: set<Routine>, placement0: int, f0: map<Routine, int>,
                               headJudgeScores: map<int, Routine>, rest: set<int>, placement: int)
      reads this
    {
      && ties <= places.Keys
      && ChiefPass(finalPlacements, f0, ties, Config().HeadRanks(), headJudgeScores, rest, placement0, placement)
    }

    method PlaceNext(ghost ties: set<Routine>, ghost placement0: int, ghost f0: map<Routine, int>,
                     headJudgeScores: map<int, Routine>, rest0: set<int>, placement1: int)
      returns (rest: set<int>, placement: int)
      requires rest0 != {} && ChiefState(ties, placement0, f0, headJudgeScores, rest0, placement1)
      modifies this
      ensures ChiefState(ties, placement0, f0, headJudgeScores, rest, placement)
      ensures relativePlacements == old(relativePlacements)
      ensures |rest| < |rest0|
    {
      HasMinimum(rest0);
      var m :| m in rest0 && forall q :: q in rest0 ==> m <= q;
      var routine := headJudgeScores[m];
      ChiefPassStep(finalPlacements, f0, ties, Config().HeadRanks(), headJudgeScores, rest0, placement0, placement1, m);
      finalPlacements := finalPlacements[routine := placement1];
      placement := placement1 + 1;
      rest := rest0 - {m};
    }

    method ChiefJudgeTie(ties: set<Routine>, placement0: int)
      requires ties <= places.Keys && forall r :: r in ties ==> headJudge < |places[r]|
      modifies this
      ensures relativePlacements == old(relativePlacements)
      ensures DistinctRanks(ties, Config().HeadRanks()) ==>
                finalPlacements == old(finalPlacements) + HeadOrder(ties, Config().HeadRanks(), placement0)
    {
      var headJudgeScores := HeadJudgeScores(ties);
      var rest := headJudgeScores.Keys;
      var placement := placement0;
      NonePlaced(ties, Config().HeadRanks(), headJudgeScores);
      while rest != {}
        invariant ChiefState(ties, placement0, old(finalPlacements), headJudgeScores, rest, placement)
        invariant relativePlacements == old(relativePlacements)
        decreases |rest|
      {
        rest, placement := PlaceNext(ties, placement0, old(finalPlacements), headJudgeScores, rest, placement);
      }
      assert PlacedBy(ties, Config().HeadRanks(), rest) == ties;
    }

    /** What the recursion needs to reach its end: every routine has a
        head-judge rank, and the ranks are pairwise distinct. */
    ghost predicate TieBreakable()
    {
      Config().HeadJudgeOnPanel() && DistinctRanks(places.Keys, Config().HeadRanks())
    }

    /** The winner search of `__ties` on the object's state: the cells of
        the level are annotated, and the smallest sums are `winner` alone or
        the group `tie`. */
    method SumStep(ties: set<Routine>, place: int) returns (winner: Routine, tie: set<Routine>)
      requires ties <= places.Keys && |ties| >= 2
      modifies this
      ensures St() == old(St()).(trace := CompareAll(Crit(), old(relativePlacements), ties, place))
      ensures tie == {} ==> Crit().SumTie(ties, place) == {winner}
      ensures tie != {} ==> Crit().SumTie(ties, place) == tie && |tie| >= 2
    {
      winner, tie := SumWinners(ties, place);
      SumsAre(Config(), ties, place);
      AnnotatedIsCompared(Config(), old(relativePlacements), ties, place);
    }

    /** The winner search of `__down` on the object's state: the tallies of
        the level are recorded, and the largest tallies are `winner` alone or
        the group `tie`. */
    method CountStep(ties: set<Routine>, place: int) returns (winner: Routine, tie: set<Routine>)
      requires ties <= places.Keys && |ties| >= 2
      modifies this
      ensures St() == old(St()).(trace := TallyAll(Crit(), old(relativePlacements), ties, place))
      ensures tie == {} ==> Crit().CountTie(ties, place) == {winner}
      ensures tie != {} ==> Crit().CountTie(ties, place) == tie && |tie| >= 2
    {
      winner, tie := CountWinners(ties, place);
      CountsAre(Config(), ties, place);
      TalliedIsTallied(Config(), old(relativePlacements), ties, place);
    }

    /** `__ties(ties, place, placement)`: the sum phase. */
    method Ties(ties: set<Routine>, place: int, placement: int)
      requires ties <= places.Keys && TieBreakable()
      modifies this
      ensures St() == TiesRun(Crit(), old(St()), ties, place, placement)
      decreases LevelsLeft(Crit(), place), |ties|, 2
    {
      if place > |places| {
        ChiefJudgeTie(ties, placement);
      } else if |ties| == 0 {
        AwardNone(St(), placement);
      } else if |ties| == 1 {
        PlaceAlone(ties, placement);
      } else {
        TiesRunSplits(Crit(), St(), ties, place, placement);
        var winner, tie := SumStep(ties, place);
        if tie != {} {
          TiesTied(ties, tie, place, placement);
        } else {
          TiesLone(ties, winner, place, placement);
        }
      }
    }

    /** A group of one takes the place at once (`ties.popitem()`). */
    method PlaceAlone(ties: set<Routine>, placement: int)
      requires |ties| == 1
      modifies this
      ensures St() == Award(old(St()), ties, placement)
    {
      NonEmptyHasMember(ties);
      var routine :| routine in ties;
      Singleton(ties, routine);
      AwardOne(St(), routine, placement);
      finalPlacements := finalPlacements[routine := placement];
    }

    /** `__ties` after a tie on the smallest rank sum: the group is broken one
        level down by `__down`, then the rest go on at this level. */
    method TiesTied(ties: set<Routine>, tie: set<Routine>, place: int, placement: int)
      requires ties <= places.Keys && TieBreakable() && place <= |places| && tie <= ties && |tie| >= 2
      modifies this
      ensures St() == TiesRunJoin(Crit(), old(St()), ties, tie, place, placement)
      decreases LevelsLeft(Crit(), place), |ties|, 1
    {
      SplitSmaller(ties, tie);
      Down(tie, place + 1, placement);
      Ties(ties - tie, place, placement + |tie|);
    }

    /** `__ties` after a lone smallest rank sum: the winner takes the place,
        then the rest go on at this level. */
    method TiesLone(ties: set<Routine>, winner: Routine, place: int, placement: int)
      requires ties <= places.Keys && TieBreakable() && place <= |places| && winner in ties
      modifies this
      ensures St() == TiesRunJoin(Crit(), old(St()), ties, {winner}, place, placement)
      decreases LevelsLeft(Crit(), place), |ties|, 1
    {
      SplitSmaller(ties, {winner});
      TiesRunLone(Crit(), St(), ties, winner, place, placement);
      finalPlacements := finalPlacements[winner := placement];
      Ties(ties - {winner}, place, placement + 1);
    }

    /** `__down(ties, place, placement)`: the count phase. Its last line, the
        call one level down when neither branch returned, cannot be reached. */
    method Down(ties: set<Routine>, place: int, placement: int)
      requires ties <= places.Keys && TieBreakable()
      modifies this
      ensures St() == DownRun(Crit(), old(St()), ties, place, placement)
      decreases LevelsLeft(Crit(), place), |ties|, 2
    {
      if place > |places| {
        ChiefJudgeTie(ties, placement);
      } else if |ties| == 0 {
        AwardNone(St(), placement);
      } else if |ties| == 1 {
        PlaceAlone(ties, placement);
      } else {
        DownRunSplits(Crit(), St(), ties, place, placement);
        var winner, tie := CountStep(ties, place);
        if tie == {} {
          DownLone(ties, winner, place, placement);
        } else {
          DownTied(ties, tie, place, placement);
        }
      }
    }

    /** `__down` after a lone largest tally: the winner takes the place, then
        the rest go on at this level. */
    method DownLone(ties: set<Routine>, winner: Routine, place: int, placement: int)
      requires ties <= places.Keys && TieBreakable() && place <= |places| && winner in ties
      modifies this
      ensures St() == DownRunJoin(Crit(), old(St()), ties, {winner}, place, placement)
      decreases LevelsLeft(Crit(), place), |ties|, 1
    {
      SplitSmaller(ties, {winner});
      DownRunLone(Crit(), St(), ties, winner, place, placement);
      finalPlacements := finalPlacements[winner := placement];
      Down(ties - {winner}, place, placement + 1);
    }

    /** `__down` after a tie on the largest tally: the group is broken one
        level down, then the rest go on at this level through `__ties`. */
    method DownTied(ties: set<Routine>, tie: set<Routine>, place: int, placement: int)
      requires ties <= places.Keys && TieBreakable() && place <= |places| && tie <= ties && |tie| >= 2
      modifies this
      ensures St() == DownRunJoin(Crit(), old(St()), ties, tie, place, placement)
      decreases LevelsLeft(Crit(), place), |ties|, 1
    {
      SplitSmaller(ties, tie);
      Down(tie, place + 1, placement);
      Ties(ties - tie, place, placement + |tie|);
    }

    /** The state of `__fill_columns`' loop at `place`. */
    ghost predicate FillState(pending: set<Routine>, t0: Trace, todo: set<Routine>, rest: set<Routine>, place: int)
      reads this
    {
      FillPass(Config(), relativePlacements, t0, pending, todo, rest, place)
    }

    /** One pass of `__fill_columns`' loop: one routine records its tally. */
    method FillOne(ghost pending: set<Routine>, ghost t0: Trace, todo0: set<Routine>, rest0: set<Routine>, place: int)
      returns (todo: set<Routine>, rest: set<Routine>)
      requires todo0 != {} && FillState(pending, t0, todo0, rest0, place)
      modifies this
      ensures FillState(pending, t0, todo, rest, place)
      ensures finalPlacements == old(finalPlacements)
      ensures |todo| < |todo0|
    {
      NonEmptyHasMember(todo0);
      var routine :| routine in todo0;
      var numPlaces := CountPlaces(place, places[routine]);
      FillPassStep(Config(), relativePlacements, t0, pending, todo0, rest0, place, routine);
      relativePlacements := RecordOne(relativePlacements, routine, place, numPlaces);
      rest := if numPlaces >= majority then rest0 - {routine} else rest0;
      todo := todo0 - {routine};
    }

    /** The loop of `__fill_columns(pending, place)`: every routine pending
        records its tally at `place`; those reaching the majority leave. */
    method FillLevel(pending: set<Routine>, place: int, next: int) returns (rest: set<Routine>)
      requires place >= 1 && next == place + 1 && FillInv(Config(), relativePlacements, pending, place)
      modifies this
      ensures relativePlacements == RecordAll(Config(), old(relativePlacements), pending, place)
      ensures rest == pending - Config().ReachedAt(pending, place)
      ensures FillInv(Config(), relativePlacements, rest, next)
      ensures finalPlacements == old(finalPlacements)
    {
      RecordAllInv(Config(), relativePlacements, pending, place);
      ghost var t0 := relativePlacements;
      var todo := pending;
      rest := pending;
      FillPassStart(Config(), t0, pending, place);
      while todo != {}
        invariant FillState(pending, t0, todo, rest, place)
        invariant finalPlacements == old(finalPlacements)
        decreases |todo|
      {
        todo, rest := FillOne(pending, t0, todo, rest, place);
      }
      assert pending - todo == pending;
    }

    /** `__fill_columns(pending, place)`: level by level, every routine that
        has not yet reached the majority records its tally, until nobody is
        left; the trace is then the closed form `FillTrace`. */
    method FillColumns(pending: set<Routine>, place: int)
      requires Config().Finishes() && place >= 1 && FillInv(Config(), relativePlacements, pending, place)
      modifies this
      ensures relativePlacements == FillTrace(Config())
      ensures finalPlacements == old(finalPlacements)
      decreases if pending == {} then 0 else TableBound(places) + 1 - place
    {
      if |pending| == 0 {
        FillDone(Config(), relativePlacements, place);
      } else {
        FillBound(Config(), relativePlacements, pending, place);
        var next := place + 1;
        var rest := FillLevel(pending, place, next);
        FillColumns(rest, next);
      }
    }

    /** The loop of `__cathunk`: the routines whose cell at `place` reaches
        the majority move from the working copy to `majorities`. */
    method SplitMajorities(relativePlaces: Trace, place: int) returns (majorities: set<Routine>, rest: Trace)
      requires HasLevel(relativePlaces, place)
      ensures majorities == Reaching(relativePlaces, relativePlaces.Keys, place, majority)
      ensures rest == relativePlaces - majorities
    {
      var todo := relativePlaces.Keys;
      majorities, rest := {}, relativePlaces;
      SplitPassStart(relativePlaces, place, majority);
      while todo != {}
        invariant SplitPass(relativePlaces, todo, place, majority, majorities, rest)
        decreases |todo|
      {
        NonEmptyHasMember(todo);
        var routine :| routine in todo;
        SplitPassStep(relativePlaces, todo, place, majority, majorities, rest, routine);
        if relativePlaces[routine][place].count >= majority {
          majorities := majorities + {routine};
          rest := rest - {routine};
        }
        todo := todo - {routine};
      }
      assert relativePlaces.Keys - todo == relativePlaces.Keys;
    }

    /** What `__cathunk(relative_places, place, placement)` needs: the column
        filling ends, the tie-breaks can place everyone, and the working copy
        holds the filled rows of exactly the routines still unplaced. */
    ghost predicate CathunkReady(relativePlaces: Trace, place: int)
    {
      && Config().Finishes() && TieBreakable()
      && Pending(Config(), relativePlaces.Keys, place)
      && forall r :: r in relativePlaces ==> relativePlaces[r] == FilledRow(Config(), r)
    }

    /** `__cathunk(relative_places, place, placement)`. It empties the working
        copy it is given, so its second recursive call after a branch that
        has already recursed finds nothing left. */
    method Cathunk(relativePlaces: Trace, place: int, placement: int) returns (remaining: Trace)
      requires CathunkReady(relativePlaces, place)
      modifies this
      ensures St() == CathunkRun(Config(), old(St()), relativePlaces.Keys, place, placement)
      ensures remaining == map[]
      decreases if relativePlaces == map[] then 0 else TableBound(places) + 1 - place, 3
    {
      if |relativePlaces| == 0 {
        assert relativePlaces.Keys == {};
        return relativePlaces;
      }
      ReachingIsReached(Config(), relativePlaces, place);
      var majorities, rest := SplitMajorities(relativePlaces, place);
      remaining := CathunkLevel(relativePlaces.Keys, majorities, rest, place, placement);
    }

    /** One level of `__cathunk` once the routines reaching the majority are
        known: they are placed, and everyone else goes one level down. */
    method CathunkLevel(ghost pending: set<Routine>, majorities: set<Routine>, rest: Trace, place: int, placement: int)
      returns (remaining: Trace)
      requires Config().Finishes() && TieBreakable() && Pending(Config(), pending, place) && pending != {}
      requires majorities == Config().ReachedAt(pending, place) && rest.Keys == Config().StillBelow(pending, place)
      requires forall r :: r in rest ==> rest[r] == FilledRow(Config(), r)
      modifies this
      ensures St() == CathunkRun(Config(), old(St()), pending, place, placement)
      ensures remaining == map[]
      decreases TableBound(places) + 1 - place, 2
    {
      if |majorities| == 0 {
        remaining := CathunkNone(pending, majorities, rest, place, placement);
      } else if |majorities| == 1 {
        remaining := CathunkOne(pending, majorities, rest, place, placement);
      } else {
        remaining := CathunkTied(pending, majorities, rest, place, placement);
      }
    }

    /** Nobody reaches the majority at `place`: the first recursive call goes
        one level down and empties the working copy, so the second finds
        nothing left. */
    method CathunkNone(ghost pending: set<Routine>, majorities: set<Routine>, rest: Trace, place: int, placement: int)
      returns (remaining: Trace)
      requires |majorities| == 0
      requires Config().Finishes() && TieBreakable() && Pending(Config(), pending, place) && pending != {}
      requires majorities == Config().ReachedAt(pending, place) && rest.Keys == Config().StillBelow(pending, place)
      requires forall r :: r in rest ==> rest[r] == FilledRow(Config(), r)
      modifies this
      ensures St() == CathunkRun(Config(), old(St()), pending, place, placement)
      ensures remaining == map[]
      decreases TableBound(places) + 1 - place, 1
    {
      LevelNone(Config(), St(), pending, majorities, rest.Keys, place, placement);
      remaining := CathunkBelow(rest, place, placement);
    }

    /** The working copy goes one level down twice: the first call empties
        it, so the second finds nothing left. */
    method CathunkBelow(rest: Trace, place: int, placement: int) returns (remaining: Trace)
      requires place <= TableBound(places) && CathunkReady(rest, place + 1)
      modifies this
      ensures St() == CathunkRun(Config(), old(St()), rest.Keys, place + 1, placement)
      ensures remaining == map[]
      decreases TableBound(places) + 1 - place, 0
    {
      var left := Cathunk(rest, place + 1, placement);
      remaining := Cathunk(left, place + 1, placement);
    }

    /** One routine reaches the majority at `place`: it takes `placement`,
        and the rest go one level down (twice, the second time finding
        nothing left). */
    method CathunkOne(ghost pending: set<Routine>, majorities: set<Routine>, rest: Trace, place: int, placement: int)
      returns (remaining: Trace)
      requires |majorities| == 1
      requires Config().Finishes() && TieBreakable() && Pending(Config(), pending, place) && pending != {}
      requires majorities == Config().ReachedAt(pending, place) && rest.Keys == Config().StillBelow(pending, place)
      requires forall r :: r in rest ==> rest[r] == FilledRow(Config(), r)
      modifies this
      ensures St() == CathunkRun(Config(), old(St()), pending, place, placement)
      ensures remaining == map[]
      decreases TableBound(places) + 1 - place, 1
    {
      LevelOne(Config(), St(), pending, majorities, rest.Keys, place, placement);
      remaining := CathunkOneBelow(majorities, rest, place, placement);
    }

    /** The lone routine takes `placement`; then the working copy goes one
        level down twice, the second time finding nothing left. */
    method CathunkOneBelow(majorities: set<Routine>, rest: Trace, place: int, placement: int) returns (remaining: Trace)
      requires |majorities| == 1 && place <= TableBound(places) && CathunkReady(rest, place + 1)
      modifies this
      ensures St() == CathunkRun(Config(), Award(old(St()), majorities, placement), rest.Keys, place + 1, placement + 1)
      ensures remaining == map[]
      decreases TableBound(places) + 1 - place, 0
    {
      PlaceAlone(majorities, placement);
      var left := Cathunk(rest, place + 1, placement + 1);
      remaining := Cathunk(left, place + 1, placement + 1);
    }

    /** Several routines reach the majority at `place`: the tie-breaks place
        them from `placement` on, and the rest go one level down. */
    method CathunkTied(ghost pending: set<Routine>, majorities: set<Routine>, rest: Trace, place: int, placement: int)
      returns (remaining: Trace)
      requires |majorities| >= 2
      requires Config().Finishes() && TieBreakable() && Pending(Config(), pending, place) && pending != {}
      requires majorities == Config().ReachedAt(pending, place) && rest.Keys == Config().StillBelow(pending, place)
      requires forall r :: r in rest ==> rest[r] == FilledRow(Config(), r)
      modifies this
      ensures St() == CathunkRun(Config(), old(St()), pending, place, placement)
      ensures remaining == map[]
      decreases TableBound(places) + 1 - place, 1
    {
      var below, next := place + 1, placement + |majorities|;
      LevelTied(Config(), St(), majorities, place, placement);
      RunUnfold(Config(), St(), TiesRun(Crit(), St(), majorities, place, placement), pending, majorities, rest.Keys,
                place, below, placement, next);
      remaining := CathunkTiedBelow(majorities, rest, place, placement, below, next);
    }

    /** The tie-breaks place the group from `placement` on; then the working
        copy goes one level down. */
    method CathunkTiedBelow(majorities: set<Routine>, rest: Trace, place: int, placement: int, below: int, next: int)
      returns (remaining: Trace)
      requires majorities <= places.Keys && |majorities| >= 2
      requires place <= TableBound(places) && below == place + 1 && next == placement + |majorities|
      requires CathunkReady(rest, below)
      modifies this
      ensures St() == CathunkRun(Config(), TiesRun(Crit(), old(St()), majorities, place, placement), rest.Keys, below, next)
      ensures remaining == map[]
      decreases TableBound(places) + 1 - place, 0
    {
      Ties(majorities, place, placement);
      remaining := Cathunk(rest, below, next);
    }
  }
}
