/** Steps 1 and 2 of `competition`, written alike in scoring.py and
    scoring2.py: the reasons table of tallies and sums, then the scan over
    the levels that writes every lone majority-reacher into its slot and
    records where each tied group starts. */
module CompetitionSteps {
  import opened ScoreTable
  import opened Tally
  import opened Placement
  import opened RelativePlacementSpec
  import opened Ranking
  import opened SlotTable
  import opened CompetitionSpec

  /** `for place in range(1, num_routines + 1): placements[place] = None`. */
  method OpenSlots(numRoutines: nat) returns (placements: Slots)
    ensures placements == EmptySlots(numRoutines)
  {
    placements := map[];
    for place := 1 to numRoutines + 1
      invariant placements == EmptySlots(place - 1)
    {
      placements := placements[place := None];
    }
  }

  // ---------------------------------------------------------------------------
  // Step 1: tally and sum every routine at every place.

  /** The body of the inner loop of step 1: one routine's tally and sum at
      one place, the head judge counted unless `included` is false. */
  method ReasonAt(ghost s: Setup, scores: Table, headJudge: nat, included: bool, routine: Routine, place: int)
    returns (reason: Reason)
    requires s.places == scores && s.headJudge == headJudge && s.includeHeadJudge == included
    requires routine in scores
    ensures reason == Reason(s.CountAt(routine, place), s.SumAt(routine, place))
  {
    var tally, sum;
    if included {
      tally := CountPlacements(scores, routine, place, None);
      sum := SumPlacements(scores, routine, place, None);
    } else {
      tally := CountPlacements(scores, routine, place, Some(headJudge));
      sum := SumPlacements(scores, routine, place, Some(headJudge));
    }
    reason := Reason(tally, sum);
  }

  /** A row holding the reasons of every place 1 .. N is the routine's row
      of the reasons table. */
  lemma RowComplete(s: Setup, routine: Routine, row: map<int, Reason>)
    requires routine in s.places && row.Keys == Upto(s.N())
    requires forall p :: p in row ==> row[p] == Reason(s.CountAt(routine, p), s.SumAt(routine, p))
    ensures row == ReasonRow(s, routine)
  {
  }

  /** The inner loop of step 1: one routine's reasons at every place 1 .. N. */
  method RoutineReasons(ghost s: Setup, scores: Table, headJudge: nat, included: bool,
                        numRoutines: nat, routine: Routine)
    returns (row: map<int, Reason>)
    requires s.places == scores && s.headJudge == headJudge && s.includeHeadJudge == included
    requires numRoutines == s.N() && routine in scores
    ensures row == ReasonRow(s, routine)
  {
    row := map[];
    for place := 1 to numRoutines + 1
      invariant row.Keys == Upto(place - 1)
      invariant forall p :: p in row ==> row[p] == Reason(s.CountAt(routine, p), s.SumAt(routine, p))
    {
      var reason := ReasonAt(s, scores, headJudge, included, routine, place);
      row := row[place := reason];
    }
    RowComplete(s, routine, row);
  }

  /** Step 1: `reasons[routine][place]` for every routine and place. */
  method TallyReasons(ghost s: Setup, scores: Table, headJudge: nat, included: bool, numRoutines: nat)
    returns (reasons: Reasons)
    requires s.places == scores && s.headJudge == headJudge && s.includeHeadJudge == included
    requires numRoutines == s.N()
    ensures reasons == ReasonTable(s)
  {
    reasons := map[];
    var todo := scores.Keys;
    while todo != {}
      invariant todo <= scores.Keys && reasons.Keys == scores.Keys - todo
      invariant forall r :: r in reasons ==> reasons[r] == ReasonRow(s, r)
      decreases |todo|
    {
      NonEmptyHasMember(todo);
      var routine :| routine in todo;
      var row := RoutineReasons(s, scores, headJudge, included, numRoutines, routine);
      reasons := reasons[routine := row];
      todo := todo - {routine};
    }
  }

  // ---------------------------------------------------------------------------
  // Step 2: the scan over the levels.

  /** A routine still to visit joins the group of `place` exactly when its
      tally reaches the majority and no level has taken it yet. */
  lemma JoinsGroup(s: Setup, decided0: seq<Routine>, routines: seq<Routine>, todo: set<Routine>,
                   place: int, routine: Routine)
    requires 1 <= place && todo <= s.places.Keys && routine in todo
    requires Lists(decided0, s.places.Keys - PendingAt(s, place))
    requires Lists(routines, GroupAt(s, place) - todo)
    ensures routine in GroupAt(s, place)
        <==> s.CountAt(routine, place) >= s.majority && routine !in decided0 + routines
  {
    ListsMember(decided0, s.places.Keys - PendingAt(s, place), routine);
    ListsMember(routines, GroupAt(s, place) - todo, routine);
  }

  /** A visited routine that joins the group extends the listing of the
      group's visited members. */
  lemma JoinStep(routines: seq<Routine>, g: set<Routine>, todo: set<Routine>, routine: Routine)
    requires Lists(routines, g - todo) && routine in todo
    ensures routine in g ==> Lists(routines + [routine], g - (todo - {routine}))
    ensures routine !in g ==> g - (todo - {routine}) == g - todo
  {
    if routine in g {
      ListsOne(routine, {routine});
      ListsConcat(routines, g - todo, [routine], {routine});
      assert g - (todo - {routine}) == (g - todo) + {routine};
    }
  }

  /** The inner loop of step 2 has visited the routines outside `todo`:
      `routines` lists those of them in the group of `place`, `count` says how
      many, and `decided_routines` has grown by them. */
  ghost predicate Visited(s: Setup, place: int, decided0: seq<Routine>, todo: set<Routine>,
                          routines: seq<Routine>, count: int, decidedRoutines: seq<Routine>)
  {
    && todo <= s.places.Keys
    && Lists(routines, GroupAt(s, place) - todo) && count == |routines|
    && decidedRoutines == decided0 + routines
  }

  /** One pass of the inner loop of step 2: the routine visited joins the
      group exactly when its tally reaches the majority and no level has
      taken it yet. */
  method VisitRoutine(ghost s: Setup, reasons: Reasons, majority: int, place: int, ghost decided0: seq<Routine>,
                      todo0: set<Routine>, routines0: seq<Routine>, count0: int, decidedRoutines0: seq<Routine>)
    returns (todo: set<Routine>, routines: seq<Routine>, count: int, decidedRoutines: seq<Routine>)
    requires reasons == ReasonTable(s) && majority == s.majority && 1 <= place <= s.N()
    requires Lists(decided0, s.places.Keys - PendingAt(s, place))
    requires Visited(s, place, decided0, todo0, routines0, count0, decidedRoutines0) && todo0 != {}
    ensures Visited(s, place, decided0, todo, routines, count, decidedRoutines) && |todo| < |todo0|
  {
    UptoIs(s.N(), place);
    NonEmptyHasMember(todo0);
    var routine :| routine in todo0;
    var tally := reasons[routine][place].tally;
    JoinsGroup(s, decided0, routines0, todo0, place, routine);
    JoinStep(routines0, GroupAt(s, place), todo0, routine);
    routines, count, decidedRoutines := routines0, count0, decidedRoutines0;
    if tally >= majority && routine !in decidedRoutines {
      count := count + 1;
      routines := routines + [routine];
      decidedRoutines := decidedRoutines + [routine];
    }
    todo := todo0 - {routine};
  }

  /** The inner loop of step 2 at one level: every routine whose tally
      reaches the majority there and that no earlier level took joins
      `decided_placements[place]` and `decided_routines`. */
  method DecideLevel(ghost s: Setup, scores: Table, reasons: Reasons, majority: int,
                     decidedRoutines0: seq<Routine>, place: int)
    returns (level: Decided, decidedRoutines: seq<Routine>)
    requires s.places == scores && reasons == ReasonTable(s) && majority == s.majority
    requires 1 <= place <= s.N()
    requires Lists(decidedRoutines0, s.places.Keys - PendingAt(s, place))
    ensures Lists(level.routines, GroupAt(s, place)) && level.count == |level.routines|
    ensures decidedRoutines == decidedRoutines0 + level.routines
  {
    var count := 0;
    var routines := [];
    decidedRoutines := decidedRoutines0;
    var todo := scores.Keys;
    VisitStart(s, place, decidedRoutines0);
    while todo != {}
      invariant Visited(s, place, decidedRoutines0, todo, routines, count, decidedRoutines)
      decreases |todo|
    {
      todo, routines, count, decidedRoutines :=
        VisitRoutine(s, reasons, majority, place, decidedRoutines0, todo, routines, count, decidedRoutines);
    }
    VisitEnd(s, place, decidedRoutines0, routines, count, decidedRoutines);
    level := Decided(count, routines);
  }

  /** Before the inner loop nothing is visited. */
  lemma VisitStart(s: Setup, place: int, decided0: seq<Routine>)
    ensures Visited(s, place, decided0, s.places.Keys, [], 0, decided0)
  {
    GroupInTable(s, place);
    ListsNone();
    assert GroupAt(s, place) - s.places.Keys == {};
    assert decided0 + [] == decided0;
  }

  /** After the inner loop the level's whole group is listed. */
  lemma VisitEnd(s: Setup, place: int, decided0: seq<Routine>, routines: seq<Routine>, count: int,
                 decidedRoutines: seq<Routine>)
    requires Visited(s, place, decided0, {}, routines, count, decidedRoutines)
    ensures Lists(routines, GroupAt(s, place)) && count == |routines| && decidedRoutines == decided0 + routines
  {
    assert GroupAt(s, place) - {} == GroupAt(s, place);
  }

  /** The state of the scan when it reaches level `place`: every level above
      is decided, the lone ones written into their slots, the tied ones
      recorded in `ties`, and `current` is the first slot left. */
  ghost predicate Scanned(s: Setup, place: int, decided: map<int, Decided>, decidedRoutines: seq<Routine>,
                          current: int, placements: Slots, ties: map<int, int>)
  {
    && 1 <= place <= s.N() + 1
    && DecidedFor(s, decided, Upto(place - 1))
    && Lists(decidedRoutines, s.places.Keys - PendingAt(s, place))
    && current == StartAt(s, place)
    && Filled(s, placements, LoneLevels(s, place - 1))
    && TiesFor(s, ties, Upto(place - 1))
  }

  lemma ScanStart(s: Setup)
    ensures Scanned(s, 1, map[], [], 1, EmptySlots(s.N()), map[])
  {
    assert PendingAt(s, 1) == s.places.Keys;
    ListsNone();
    StartOne(s);
    assert LoneLevels(s, 0) == {};
    FilledEmpty(s);
  }

  /** A tied group's first slot comes before every later level's. */
  lemma TieBefore(s: Setup, q: int, place: int)
    requires 1 <= q < place && GroupAt(s, q) != {}
    ensures StartAt(s, q) < StartAt(s, place)
  {
    var next := q + 1;
    StartNext(s, q);
    StartMonotone(s, next, place);
  }

  lemma DecidedNext(s: Setup, decided: map<int, Decided>, place: int, level: Decided)
    requires 1 <= place && DecidedFor(s, decided, Upto(place - 1))
    requires Lists(level.routines, GroupAt(s, place)) && level.count == |level.routines|
    ensures DecidedFor(s, decided[place := level], Upto(place))
  {
    UptoIs(place - 1, place);
  }

  /** Every tied group recorded so far starts before the current slot. */
  lemma TiesBelow(s: Setup, ties: map<int, int>, place: int, current: int)
    requires 1 <= place && TiesFor(s, ties, Upto(place - 1)) && current == StartAt(s, place)
    ensures forall k :: k in ties ==> k < current
  {
    forall k | k in ties
      ensures k < current
    {
      TieKeyBelow(s, ties, place, Upto(place - 1), current, k);
    }
  }

  /** One recorded tied group starts before the current slot. */
  lemma TieKeyBelow(s: Setup, ties: map<int, int>, place: int, levels: set<int>, current: int, k: int)
    requires 1 <= place && levels == Upto(place - 1) && TiesFor(s, ties, levels)
    requires current == StartAt(s, place) && k in ties
    ensures k < current
  {
    var q := ties[k];
    LevelBelow(levels, place, q);
    TieBefore(s, q, place);
  }

  /** A level among `1 .. place - 1` lies below `place`. */
  lemma LevelBelow(levels: set<int>, place: int, q: int)
    requires 1 <= place && levels == Upto(place - 1) && q in levels
    ensures 1 <= q < place
  {
    UptoIs(place - 1, q);
  }

  /** A tied group at `place` is recorded under its first slot. */
  lemma TiesNext(s: Setup, ties: map<int, int>, place: int, current: int)
    requires 1 <= place && TiesFor(s, ties, Upto(place - 1)) && current == StartAt(s, place)
    requires |GroupAt(s, place)| > 1
    ensures TiesFor(s, ties[current := place], Upto(place))
  {
    TiesBelow(s, ties, place, current);
    UptoIs(place - 1, place);
  }

  /** A level without a tied group records nothing. */
  lemma NoTiesNext(s: Setup, ties: map<int, int>, place: int)
    requires 1 <= place && TiesFor(s, ties, Upto(place - 1)) && |GroupAt(s, place)| <= 1
    ensures TiesFor(s, ties, Upto(place))
  {
    UptoIs(place - 1, place);
  }

  /** `placements[current_placement] = routines[0]` fills a lone level. */
  lemma LoneNext(s: Setup, placements: Slots, place: int, prev: nat, current: int, routines: seq<Routine>)
    requires 1 <= place <= s.N() && prev + 1 == place && Filled(s, placements, LoneLevels(s, prev))
    requires current == StartAt(s, place)
    requires Lists(routines, GroupAt(s, place)) && |routines| == 1
    ensures Filled(s, placements[current := Some(routines[0])], LoneLevels(s, place))
  {
    ListsLength(routines, GroupAt(s, place));
    LoneLevelsNext(s, prev, place);
    LoneOne(s, placements, place, prev, current, routines);
  }

  /** A level whose group is empty or tied leaves the slots as they are. */
  lemma NoLoneNext(s: Setup, placements: Slots, place: int, prev: nat, routines: seq<Routine>)
    requires 1 <= place <= s.N() && prev + 1 == place && Filled(s, placements, LoneLevels(s, prev))
    requires Lists(routines, GroupAt(s, place)) && |routines| != 1
    ensures Filled(s, placements, LoneLevels(s, place))
  {
    ListsLength(routines, GroupAt(s, place));
    LoneLevelsNext(s, prev, place);
  }

  /** A lone majority-reacher written into the level's first slot fills that level. */
  lemma LoneOne(s: Setup, placements: Slots, place: int, prev: nat, current: int, routines: seq<Routine>)
    requires 1 <= place <= s.N() && prev + 1 == place && Filled(s, placements, LoneLevels(s, prev))
    requires Lists(routines, GroupAt(s, place)) && |routines| == 1 && place !in LoneLevels(s, prev)
    requires current == StartAt(s, place)
    ensures Filled(s, placements[current := Some(routines[0])], LoneLevels(s, prev) + {place})
  {
    var w := routines[0];
    ListsMember(routines, GroupAt(s, place), w);
    ListsLength(routines, GroupAt(s, place));
    DifferenceCard(GroupAt(s, place), {w});
    assert GroupAt(s, place) - {w} == {};
    LoneIsGroupOrder(s, placements, place, w);
    FillLevel(s, placements, LoneLevels(s, prev), place);
  }

  lemma ScannedNext(s: Setup, place: int, next: int, decided: map<int, Decided>, decidedRoutines: seq<Routine>,
                    current: int, placements: Slots, ties: map<int, int>)
    requires 1 <= place <= s.N() && next == place + 1
    requires DecidedFor(s, decided, Upto(place))
    requires Lists(decidedRoutines, s.places.Keys - PendingAt(s, next))
    requires current == StartAt(s, next)
    requires Filled(s, placements, LoneLevels(s, place))
    requires TiesFor(s, ties, Upto(place))
    ensures Scanned(s, next, decided, decidedRoutines, current, placements, ties)
  {
    assert next - 1 == place;
  }

  /** The lone levels written before `place`, the level before it given by name. */
  lemma FilledBefore(s: Setup, placements: Slots, place: int) returns (prev: nat)
    requires 1 <= place && Filled(s, placements, LoneLevels(s, place - 1))
    ensures prev + 1 == place && Filled(s, placements, LoneLevels(s, prev))
  {
    prev := place - 1;
  }

  /** One pass of the outer loop of step 2. */
  method ScanLevel(ghost s: Setup, scores: Table, reasons: Reasons, majority: int, place: int, next: int,
                   decided0: map<int, Decided>, decidedRoutines0: seq<Routine>, current0: int,
                   placements0: Slots, ties0: map<int, int>)
    returns (decided: map<int, Decided>, decidedRoutines: seq<Routine>, current: int,
             placements: Slots, ties: map<int, int>)
    requires s.places == scores && reasons == ReasonTable(s) && majority == s.majority
    requires place <= s.N() && next == place + 1
    requires Scanned(s, place, decided0, decidedRoutines0, current0, placements0, ties0)
    ensures Scanned(s, next, decided, decidedRoutines, current, placements, ties)
  {
    ghost var prev := FilledBefore(s, placements0, place);
    var level;
    level, decidedRoutines := DecideLevel(s, scores, reasons, majority, decidedRoutines0, place);
    decided := decided0[place := level];
    placements, ties := placements0, ties0;
    if level.count == 1 {
      placements := placements0[current0 := Some(level.routines[0])];
    } else if level.count > 1 {
      ties := ties0[current0 := place];
    }
    current := current0 + level.count;
    DecidedNext(s, decided0, place, level);
    ReachedSplit(s, place, next);
    ListsConcat(decidedRoutines0, s.places.Keys - PendingAt(s, place), level.routines, GroupAt(s, place));
    ListsLength(level.routines, GroupAt(s, place));
    StartNext(s, place);
    if level.count > 1 {
      TiesNext(s, ties0, place, current0);
    } else {
      NoTiesNext(s, ties0, place);
    }
    if level.count == 1 {
      LoneNext(s, placements0, place, prev, current0, level.routines);
    } else {
      NoLoneNext(s, placements0, place, prev, level.routines);
    }
    ScannedNext(s, place, next, decided, decidedRoutines, current, placements, ties);
  }

  /** Step 2: the scan over levels 1 .. N. */
  method Scan(ghost s: Setup, scores: Table, reasons: Reasons, majority: int, numRoutines: nat,
              placements0: Slots)
    returns (placements: Slots, decided: map<int, Decided>, ties: map<int, int>)
    requires s.places == scores && reasons == ReasonTable(s) && majority == s.majority
    requires numRoutines == s.N() && placements0 == EmptySlots(numRoutines)
    ensures DecidedFor(s, decided, Upto(s.N()))
    ensures Filled(s, placements, LoneLevels(s, s.N()))
    ensures TiesFor(s, ties, Upto(s.N()))
  {
    decided, placements, ties := map[], placements0, map[];
    var decidedRoutines := [];
    var current := 1;
    ScanStart(s);
    var place := 1;
    while place <= numRoutines
      invariant Scanned(s, place, decided, decidedRoutines, current, placements, ties)
      decreases numRoutines + 1 - place
    {
      var next := place + 1;
      decided, decidedRoutines, current, placements, ties :=
        ScanLevel(s, scores, reasons, majority, place, next, decided, decidedRoutines, current, placements, ties);
      place := next;
    }
    ScanEnd(s, place, decided, decidedRoutines, current, placements, ties);
  }

  /** Past the last level every level has been scanned. */
  lemma ScanEnd(s: Setup, place: int, decided: map<int, Decided>, decidedRoutines: seq<Routine>,
                current: int, placements: Slots, ties: map<int, int>)
    requires Scanned(s, place, decided, decidedRoutines, current, placements, ties) && place > s.N()
    ensures DecidedFor(s, decided, Upto(s.N()))
    ensures Filled(s, placements, LoneLevels(s, s.N()))
    ensures TiesFor(s, ties, Upto(s.N()))
  {
    assert place - 1 == s.N();
  }
}
