/** `competition` of scoring.py: steps 1 and 2 shared with scoring2.py, then
    steps 3 and 4, where the nested `place_ties` orders every tied group in
    its block of slots and the head judge's ranks settle what the last level
    leaves tied. */
module Scoring {
  import opened ScoreTable
  import opened Tally
  import opened Placement
  import opened Tiebreak
  import opened RelativePlacementSpec
  import opened Ranking
  import opened SlotTable
  import opened ScoringTies
  import opened CompetitionSpec
  import opened CompetitionSteps

  /** What `place_ties` sees of the enclosing `competition`: the score table,
      the reasons table of step 1, the head judge and `num_routines`. */
  ghost predicate Context(s: Setup, scores: Table, reasons: Reasons, headJudge: nat, numRoutines: nat)
  {
    && s.places == scores && s.headJudge == headJudge && numRoutines == s.N()
    && reasons == ReasonTable(s) && Placeable(s)
  }

  /** The criteria `place_ties` consults are those of the panel. */
  lemma CritIs(s: Setup)
    ensures s.Crit().rank == s.HeadRanks() && s.Crit().rank.Keys == s.places.Keys && s.Crit().last == s.N()
  {
  }

  // ---------------------------------------------------------------------------
  // The head-judge fallback (`count >= num_routines`).

  /** The first loop of the fallback: `headjudgescores[scores[r][head_judge]] = r`. */
  method HeadJudgeScores(ghost s: Setup, scores: Table, headJudge: nat, routines: set<Routine>)
    returns (headJudgeScores: map<int, Routine>)
    requires s.places == scores && s.headJudge == headJudge && s.HeadJudgeOnPanel() && routines <= scores.Keys
    ensures Indexed(s.HeadRanks(), routines, headJudgeScores)
  {
    ghost var rank := s.HeadRanks();
    headJudgeScores := map[];
    var todo := routines;
    while todo != {}
      invariant todo <= routines && Indexed(rank, routines - todo, headJudgeScores)
      decreases |todo|
    {
      NonEmptyHasMember(todo);
      var r :| r in todo;
      var headJudgeScore := scores[r][headJudge];
      IndexStep(rank, routines - todo, headJudgeScores, r);
      headJudgeScores := headJudgeScores[headJudgeScore := r];
      assert routines - (todo - {r}) == (routines - todo) + {r};
      todo := todo - {r};
    }
    assert routines - todo == routines;
  }

  /** The second loop of the fallback has written the routines of the ranks
      read so far; those of the ranks `rest` follow in the head judge's order
      from `slot` on. */
  ghost predicate Fallback(s: Setup, routines: set<Routine>, headJudgeScores: map<int, Routine>, rest: set<int>,
                           placements0: Slots, place: int, placements: Slots, slot: int)
  {
    && routines <= s.places.Keys && Placeable(s)
    && Indexed(s.HeadRanks(), routines, headJudgeScores) && Ascending(headJudgeScores, rest)
    && Put(placements, slot, ByRank(routines - PlacedBy(routines, s.HeadRanks(), rest), s.HeadRanks()))
       == Put(placements0, place, ByRank(routines, s.HeadRanks()))
  }

  /** One pass of the second loop: the smallest rank left goes into the next slot. */
  method FallbackStep(ghost s: Setup, ghost routines: set<Routine>, headJudgeScores: map<int, Routine>,
                      rest0: set<int>, ghost placements0: Slots, ghost place: int, placements1: Slots, slot0: int)
    returns (rest: set<int>, placements: Slots, slot: int)
    requires rest0 != {} && Fallback(s, routines, headJudgeScores, rest0, placements0, place, placements1, slot0)
    ensures Fallback(s, routines, headJudgeScores, rest, placements0, place, placements, slot) && |rest| < |rest0|
  {
    ghost var rank := s.HeadRanks();
    HasMinimum(rest0);
    var m :| m in rest0 && forall q :: q in rest0 ==> m <= q;
    var routine := headJudgeScores[m];
    ChiefStep(routines, rank, headJudgeScores, rest0, m);
    ghost var unread := routines - PlacedBy(routines, rank, rest0);
    forall x | x in unread
      ensures rank[routine] <= rank[x]
    {
    }
    ByRankFirst(unread, rank, routine);
    assert unread - {routine} == routines - PlacedBy(routines, rank, rest0 - {m});
    slot := slot0 + 1;
    PutCons(placements1, slot0, slot, routine, ByRank(unread - {routine}, rank));
    placements := placements1[slot0 := Some(routine)];
    rest := rest0 - {m};
  }

  /** The fallback: the group in consecutive slots from `place` on, in the
      ascending order of the head judge's ranks. */
  method HeadJudgePlaces(ghost s: Setup, scores: Table, headJudge: nat, placements0: Slots,
                         routines: set<Routine>, place: int)
    returns (placements: Slots)
    requires s.places == scores && s.headJudge == headJudge && Placeable(s) && routines <= scores.Keys
    ensures placements == Put(placements0, place, ByRank(routines, s.HeadRanks()))
  {
    var headJudgeScores := HeadJudgeScores(s, scores, headJudge, routines);
    NonePlaced(routines, s.HeadRanks(), headJudgeScores);
    var rest := headJudgeScores.Keys;
    placements := placements0;
    var slot := place;
    assert routines - PlacedBy(routines, s.HeadRanks(), rest) == routines;
    while rest != {}
      invariant Fallback(s, routines, headJudgeScores, rest, placements0, place, placements, slot)
      decreases |rest|
    {
      rest, placements, slot := FallbackStep(s, routines, headJudgeScores, rest, placements0, place, placements, slot);
    }
    assert routines - PlacedBy(routines, s.HeadRanks(), rest) == {};
  }

  // ---------------------------------------------------------------------------
  // The leaders at one level.

  /** `the_dict = {r: reasons[r][count][i] for r in routines}`: the sums
      (under `'sum'`) or the tallies (under `'tally'`) of the group at level
      `count`, as the criteria give them. */
  method TheDict(ghost s: Setup, reasons: Reasons, routines: set<Routine>, count: int, bySum: bool)
    returns (theDict: map<Routine, int>)
    requires reasons == ReasonTable(s) && routines <= s.places.Keys && 1 <= count <= s.N()
    ensures bySum ==> theDict == s.Crit().Sums(routines, count)
    ensures !bySum ==> theDict == s.Crit().Counts(routines, count)
  {
    ListedReasons(s, reasons, routines, count);
    theDict := map r | r in routines :: if bySum then reasons[r][count].sum else reasons[r][count].tally;
    DictIs(s.Crit(), reasons, routines, count, bySum, theDict);
  }

  /** A dict read off reasons that agree with the criteria is the criteria's own. */
  lemma DictIs(c: Criteria, reasons: Reasons, routines: set<Routine>, count: int, bySum: bool, theDict: map<Routine, int>)
    requires forall r :: r in routines ==>
               (r in reasons && count in reasons[r] &&
                reasons[r][count].sum == c.sum(r, count) && reasons[r][count].tally == c.count(r, count))
    requires theDict == map r | r in routines :: if bySum then reasons[r][count].sum else reasons[r][count].tally
    ensures bySum ==> theDict == c.Sums(routines, count)
    ensures !bySum ==> theDict == c.Counts(routines, count)
  {
    var want := if bySum then c.Sums(routines, count) else c.Counts(routines, count);
    assert theDict.Keys == want.Keys;
    forall r | r in routines
      ensures theDict[r] == want[r]
    {
    }
  }

  /** The reasons of every routine of the group at level `count` are its true
      tally and rank sum there. */
  lemma ListedReasons(s: Setup, reasons: Reasons, routines: set<Routine>, count: int)
    requires reasons == ReasonTable(s) && routines <= s.places.Keys && 1 <= count <= s.N()
    ensures forall r :: r in routines ==>
              (r in reasons && count in reasons[r] &&
               reasons[r][count].sum == s.Crit().sum(r, count) && reasons[r][count].tally == s.Crit().count(r, count))
  {
    UptoIs(s.N(), count);
  }

  /** The least sum (under `'sum'`) or the largest tally (under `'tally'`)
      of the group: `min(the_dict, key=the_dict.get)` or `max(...)`. */
  method Extreme(ghost s: Setup, routines: set<Routine>, count: int, bySum: bool, theDict: map<Routine, int>)
    returns (leader: Routine)
    requires routines != {} && routines <= s.places.Keys
    requires bySum ==> theDict == s.Crit().Sums(routines, count)
    requires !bySum ==> theDict == s.Crit().Counts(routines, count)
    ensures leader in Leaders(s.Crit(), routines, count, bySum)
    ensures leader in routines
    ensures forall r :: r in routines ==> if bySum then theDict[leader] <= theDict[r] else theDict[r] <= theDict[leader]
  {
    LeadersNonEmpty(s.Crit(), routines, count, bySum);
    NonEmptyHasMember(Leaders(s.Crit(), routines, count, bySum));
    ghost var w :| w in Leaders(s.Crit(), routines, count, bySum);
    assert forall r :: r in routines ==> if bySum then theDict[w] <= theDict[r] else theDict[r] <= theDict[w];
    leader :| leader in routines && forall r :: r in routines ==>
      if bySum then theDict[leader] <= theDict[r] else theDict[r] <= theDict[leader];
  }

  /** The collecting loop has visited the routines outside `todo`: `tie`
      holds the leader and those of them with the leader's value. */
  ghost predicate Collected(routines: set<Routine>, theDict: map<Routine, int>, leader: Routine,
                            todo: set<Routine>, tie: set<Routine>)
  {
    && routines <= theDict.Keys && todo <= routines && leader in routines
    && tie == WithValue(routines - todo, theDict, theDict[leader]) + {leader}
  }

  /** One pass of the collecting loop: `if v is the_dict[new_routines[0]] and
      not r is new_routines[0]: new_routines.append(r)`. */
  method CollectStep(ghost routines: set<Routine>, theDict: map<Routine, int>, leader: Routine,
                     todo0: set<Routine>, tie0: set<Routine>)
    returns (todo: set<Routine>, tie: set<Routine>)
    requires todo0 != {} && Collected(routines, theDict, leader, todo0, tie0)
    ensures Collected(routines, theDict, leader, todo, tie) && |todo| < |todo0|
  {
    NonEmptyHasMember(todo0);
    var r :| r in todo0;
    WithValueAdd(routines - todo0, theDict, r, theDict[leader]);
    tie := tie0;
    if theDict[r] == theDict[leader] && r != leader {
      tie := tie + {r};
    }
    assert routines - (todo0 - {r}) == (routines - todo0) + {r};
    todo := todo0 - {r};
  }

  /** `new_routines`: the leader and every routine whose value equals the
      leader's, that is the routines tied on the extreme value. */
  method TieLeaders(ghost s: Setup, reasons: Reasons, routines: set<Routine>, count: int, bySum: bool)
    returns (leader: Routine, tie: set<Routine>)
    requires reasons == ReasonTable(s) && routines != {} && routines <= s.places.Keys && 1 <= count <= s.N()
    ensures tie == Leaders(s.Crit(), routines, count, bySum) && leader in tie
  {
    var theDict := TheDict(s, reasons, routines, count, bySum);
    leader := Extreme(s, routines, count, bySum, theDict);
    tie := {leader};
    var todo := routines;
    assert routines - todo == {};
    while todo != {}
      invariant Collected(routines, theDict, leader, todo, tie)
      decreases |todo|
    {
      todo, tie := CollectStep(routines, theDict, leader, todo, tie);
    }
    assert routines - todo == routines;
    if bySum {
      MinGroupIs(routines, theDict, leader, theDict[leader]);
    } else {
      MaxGroupIs(routines, theDict, leader, theDict[leader]);
    }
  }

  // ---------------------------------------------------------------------------
  // `place_ties`.

  /** `place_ties(routines, place, count, i)`, `i` being `'sum'` when
      `bySum`: the group is written into the slots from `place` on in the
      order the tie-break gives it. */
  method PlaceTies(ghost s: Setup, scores: Table, reasons: Reasons, headJudge: nat, numRoutines: nat,
                   placements0: Slots, routines: set<Routine>, place: int, count: int, bySum: bool)
    returns (placements: Slots)
    requires Context(s, scores, reasons, headJudge, numRoutines) && routines <= scores.Keys && count >= 1
    ensures placements == Put(placements0, place, PlaceTiesOrder(s.Crit(), routines, count, bySum))
    decreases LevelsLeft(s.Crit(), count), |routines|, 1
  {
    CritIs(s);
    if |routines| == 0 {
      placements := placements0;
    } else if |routines| == 1 {
      NonEmptyHasMember(routines);
      var routine :| routine in routines;
      placements := PlaceOne(s, placements0, routines, routine, place, count, bySum);
    } else if count >= numRoutines {
      placements := HeadJudgePlaces(s, scores, headJudge, placements0, routines, place);
      assert PlaceTiesOrder(s.Crit(), routines, count, bySum) == ByRank(routines, s.Crit().rank);
    } else {
      var leader, tie := TieLeaders(s, reasons, routines, count, bySum);
      assert PlaceTiesOrder(s.Crit(), routines, count, bySum) == PlaceTiesJoin(s.Crit(), routines, tie, count);
      if |tie| == 1 {
        placements := PlaceLone(s, scores, reasons, headJudge, numRoutines, placements0, routines, leader, tie,
                                place, count);
      } else {
        placements := PlaceTied(s, scores, reasons, headJudge, numRoutines, placements0, routines, tie,
                                place, count);
      }
    }
  }

  /** A group of one: `placements[place] = routines[0]`. */
  method PlaceOne(ghost s: Setup, placements0: Slots, ghost routines: set<Routine>, routine: Routine,
                  place: int, ghost count: int, ghost bySum: bool)
    returns (placements: Slots)
    requires routines <= s.Crit().rank.Keys && |routines| == 1 && routine in routines
    ensures placements == Put(placements0, place, PlaceTiesOrder(s.Crit(), routines, count, bySum))
  {
    DifferenceCard(routines, {routine});
    assert routines - {routine} == {};
    assert routines == {routine};
    assert TheOne(routines) == routine;
    placements := placements0[place := Some(routine)];
    assert Put(placements, place + 1, []) == placements;
  }

  /** A lone leader takes `place`; the rest follow under `'sum'` at the same level. */
  method PlaceLone(ghost s: Setup, scores: Table, reasons: Reasons, headJudge: nat, numRoutines: nat,
                   placements0: Slots, routines: set<Routine>, leader: Routine, tie: set<Routine>,
                   place: int, count: int)
    returns (placements: Slots)
    requires Context(s, scores, reasons, headJudge, numRoutines) && routines <= scores.Keys
    requires 1 <= count < s.N() && tie <= routines && leader in tie && |tie| == 1
    ensures placements == Put(placements0, place, PlaceTiesJoin(s.Crit(), routines, tie, count))
    decreases LevelsLeft(s.Crit(), count), |routines|, 0
  {
    CritIs(s);
    DifferenceCard(tie, {leader});
    assert tie - {leader} == {};
    assert tie == {leader};
    assert TheOne(tie) == leader;
    SubsetCard(routines - tie, routines);
    assert routines - tie < routines;
    var next := place + 1;
    placements := PlaceTies(s, scores, reasons, headJudge, numRoutines, placements0[place := Some(leader)],
                            routines - tie, next, count, true);
    PutCons(placements0, place, next, leader, PlaceTiesOrder(s.Crit(), routines - tie, count, true));
  }

  /** Tied leaders are ordered one level down under `'tally'`; the rest
      follow under `'sum'` at the same level, from the slot after them. */
  method PlaceTied(ghost s: Setup, scores: Table, reasons: Reasons, headJudge: nat, numRoutines: nat,
                   placements0: Slots, routines: set<Routine>, tie: set<Routine>, place: int, count: int)
    returns (placements: Slots)
    requires Context(s, scores, reasons, headJudge, numRoutines) && routines <= scores.Keys
    requires 1 <= count < s.N() && tie <= routines && |tie| > 1
    ensures placements == Put(placements0, place, PlaceTiesJoin(s.Crit(), routines, tie, count))
    decreases LevelsLeft(s.Crit(), count), |routines|, 0
  {
    CritIs(s);
    SubsetCard(routines - tie, routines);
    NonEmptyHasMember(tie);
    assert routines - tie < routines;
    var deeper := count + 1;
    var first := PlaceTies(s, scores, reasons, headJudge, numRoutines, placements0, tie, place, deeper, false);
    ghost var firstOrder := PlaceTiesOrder(s.Crit(), tie, deeper, false);
    PlaceTiesLists(s.Crit(), tie, deeper, false);
    ListsLength(firstOrder, tie);
    var next := place + |tie|;
    placements := PlaceTies(s, scores, reasons, headJudge, numRoutines, first, routines - tie, next, count, true);
    ghost var rest := PlaceTiesOrder(s.Crit(), routines - tie, count, true);
    PutAppend(placements0, place, next, firstOrder, rest);
    TiedJoin(s.Crit(), routines, tie, count, deeper);
  }

  lemma TiedJoin(c: Criteria, g: set<Routine>, tie: set<Routine>, level: int, deeper: int)
    requires g <= c.rank.Keys && level < c.last && tie <= g && |tie| > 1 && deeper == level + 1
    ensures PlaceTiesJoin(c, g, tie, level)
         == PlaceTiesOrder(c, tie, deeper, false) + PlaceTiesOrder(c, g - tie, level, true)
  {
    assert |tie| != 1;
  }

  // ---------------------------------------------------------------------------
  // Steps 3 and 4: `for current_placement, place in ties.items()`.

  /** The levels that the tied groups starting at the slots `keys` belong to. */
  ghost function LevelsOf(ties: map<int, int>, keys: set<int>): set<int>
  {
    set k | k in keys && k in ties :: ties[k]
  }

  /** The routines of a level's recorded list, as a set, are its group. */
  lemma DecidedGroup(s: Setup, decided: map<int, Decided>, place: int)
    requires DecidedFor(s, decided, Upto(s.N())) && place in decided
    ensures (set r | r in decided[place].routines) == GroupAt(s, place)
  {
    forall r
      ensures r in decided[place].routines <==> r in GroupAt(s, place)
    {
      ListsMember(decided[place].routines, GroupAt(s, place), r);
    }
  }

  /** A tied level not yet visited is not among the levels filled so far. */
  lemma TiedLevelOpen(s: Setup, ties: map<int, int>, todo: set<int>, k: int)
    requires TiesFor(s, ties, Upto(s.N())) && todo <= ties.Keys && k in todo
    ensures ties[k] !in LoneLevels(s, s.N()) + LevelsOf(ties, ties.Keys - todo)
  {
  }

  /** One pass of the loop: the group of one tied level goes into its block,
      `place_ties(routines[:], current_placement, place, 'sum')`. */
  method TieStep(ghost s: Setup, scores: Table, reasons: Reasons, headJudge: nat, numRoutines: nat,
                 decided: map<int, Decided>, ties: map<int, int>, todo0: set<int>, placements0: Slots)
    returns (todo: set<int>, placements: Slots)
    requires Context(s, scores, reasons, headJudge, numRoutines)
    requires DecidedFor(s, decided, Upto(s.N())) && TiesFor(s, ties, Upto(s.N()))
    requires todo0 != {} && todo0 <= ties.Keys
    requires Filled(s, placements0, LoneLevels(s, s.N()) + LevelsOf(ties, ties.Keys - todo0))
    ensures todo <= ties.Keys && |todo| < |todo0|
    ensures Filled(s, placements, LoneLevels(s, s.N()) + LevelsOf(ties, ties.Keys - todo))
  {
    NonEmptyHasMember(todo0);
    var currentPlacement :| currentPlacement in todo0;
    var place := ties[currentPlacement];
    UptoIs(s.N(), place);
    DecidedGroup(s, decided, place);
    GroupInTable(s, place);
    var routines := set r | r in decided[place].routines;
    placements := PlaceTies(s, scores, reasons, headJudge, numRoutines, placements0, routines,
                            currentPlacement, place, true);
    todo := todo0 - {currentPlacement};
    TieFilled(s, ties, todo0, currentPlacement, todo, placements0);
  }

  /** Writing a tied level's order into its block fills one more level. */
  lemma TieFilled(s: Setup, ties: map<int, int>, todo0: set<int>, k: int, todo: set<int>, a: Slots)
    requires TiesFor(s, ties, Upto(s.N())) && todo0 <= ties.Keys && k in todo0 && todo == todo0 - {k}
    requires Filled(s, a, LoneLevels(s, s.N()) + LevelsOf(ties, ties.Keys - todo0))
    ensures ties[k] in Upto(s.N())
    ensures Filled(s, Put(a, k, GroupOrder(s, ties[k])), LoneLevels(s, s.N()) + LevelsOf(ties, ties.Keys - todo))
  {
    ghost var place := ties[k];
    ghost var lone := LoneLevels(s, s.N());
    ghost var levels := lone + LevelsOf(ties, ties.Keys - todo0);
    UptoIs(s.N(), place);
    TiedLevelOpen(s, ties, todo0, k);
    assert StartAt(s, place) == k;
    FillLevel(s, a, levels, place);
    LevelsOfAdd(ties, lone, todo0, k, todo, levels);
  }

  /** Marking the tied level at slot `k` done adds its level to the filled ones. */
  lemma LevelsOfAdd(ties: map<int, int>, lone: set<int>, todo0: set<int>, k: int, todo: set<int>, levels: set<int>)
    requires todo0 <= ties.Keys && k in todo0 && todo == todo0 - {k}
    requires levels == lone + LevelsOf(ties, ties.Keys - todo0)
    ensures levels + {ties[k]} == lone + LevelsOf(ties, ties.Keys - todo)
  {
    assert LevelsOf(ties, ties.Keys - todo) == LevelsOf(ties, ties.Keys - todo0) + {ties[k]};
  }

  /** Every tied group placed: the slots are the whole ranking. */
  method PlaceAllTies(ghost s: Setup, scores: Table, reasons: Reasons, headJudge: nat, numRoutines: nat,
                      decided: map<int, Decided>, ties: map<int, int>, placements0: Slots)
    returns (placements: Slots)
    requires Context(s, scores, reasons, headJudge, numRoutines)
    requires DecidedFor(s, decided, Upto(s.N())) && TiesFor(s, ties, Upto(s.N()))
    requires Filled(s, placements0, LoneLevels(s, s.N()))
    ensures placements == Placements(s)
  {
    var todo := ties.Keys;
    placements := placements0;
    assert LevelsOf(ties, ties.Keys - todo) == {};
    assert LoneLevels(s, s.N()) + {} == LoneLevels(s, s.N());
    while todo != {}
      invariant todo <= ties.Keys
      invariant Filled(s, placements, LoneLevels(s, s.N()) + LevelsOf(ties, ties.Keys - todo))
      decreases |todo|
    {
      todo, placements := TieStep(s, scores, reasons, headJudge, numRoutines, decided, ties, todo, placements);
    }
    AllLevelsFilled(s, ties, placements);
  }

  /** Once every tied level is filled too, the slots hold each level's order. */
  lemma AllLevelsFilled(s: Setup, ties: map<int, int>, a: Slots)
    requires TiesFor(s, ties, Upto(s.N()))
    requires Filled(s, a, LoneLevels(s, s.N()) + LevelsOf(ties, ties.Keys - {}))
    ensures a == Placements(s)
  {
    ghost var levels := LoneLevels(s, s.N()) + LevelsOf(ties, ties.Keys - {});
    forall q | q in Upto(s.N()) && GroupAt(s, q) != {}
      ensures q in levels
    {
      if |GroupAt(s, q)| > 1 {
        assert ties[StartAt(s, q)] == q;
      }
    }
    FilledIsPlacements(s, a, levels);
  }

  // ---------------------------------------------------------------------------
  // `competition(scores, head_judge, included)`.

  /** What `competition` returns: the slots and the reasons table. */
  datatype Outcome = Outcome(placements: Slots, reasons: Reasons)

  /** The outcome of the panel whose size is that of routine `r`'s row. */
  ghost function Expected(scores: Table, headJudge: nat, included: bool, r: Routine): Outcome
    requires r in scores
  {
    var s := Setup(scores, headJudge, Majority(|scores[r]|), included);
    Outcome(Placements(s), ReasonTable(s))
  }

  /** Whether the fallback can place every group does not depend on the majority. */
  lemma PlaceableAnyMajority(scores: Table, headJudge: nat, included: bool, m: int, m': int)
    requires Placeable(Setup(scores, headJudge, m, included))
    ensures Placeable(Setup(scores, headJudge, m', included))
  {
  }

  /** Under one panel every row gives the same size, so the outcome is the contest's. */
  lemma OnePanelExpected(scores: Table, headJudge: nat, included: bool, r: Routine)
    requires OnePanel(scores) && r in scores
    ensures Expected(scores, headJudge, included, r)
         == Outcome(Placements(Contest(scores, headJudge, included)), ReasonTable(Contest(scores, headJudge, included)))
  {
  }

  /** `competition(scores, head_judge, included)`: `None` when there is no
      routine (reading the first row fails); otherwise the ranking of the
      panel whose size is that of some row, with its reasons table. */
  method Competition(scores: Table, headJudge: nat, included: bool) returns (result: Option<Outcome>)
    requires scores != map[] ==> Placeable(Contest(scores, headJudge, included))
    ensures result == None <==> scores == map[]
    ensures result.Some? ==> exists r :: r in scores && result.value == Expected(scores, headJudge, included, r)
  {
    if scores == map[] {
      return None;
    }
    NonEmptyHasMember(scores.Keys);
    var first :| first in scores;
    PlaceableAnyMajority(scores, headJudge, included, Contest(scores, headJudge, included).majority,
                         Majority(|scores[first]|));
    var outcome := Rank(scores, headJudge, included, first);
    result := Some(outcome);
  }

  /** The four steps, the panel's size read from the row of `first`. */
  method Rank(scores: Table, headJudge: nat, included: bool, first: Routine) returns (outcome: Outcome)
    requires first in scores && Placeable(Setup(scores, headJudge, Majority(|scores[first]|), included))
    ensures outcome == Expected(scores, headJudge, included, first)
  {
    var numJudges := |scores[first]|;
    var numRoutines := |scores|;
    var majority := Majority(numJudges);
    ghost var s := Setup(scores, headJudge, majority, included);
    var open := OpenSlots(numRoutines);
    var reasons := TallyReasons(s, scores, headJudge, included, numRoutines);
    var lone, decided, ties := Scan(s, scores, reasons, majority, numRoutines, open);
    var placements := PlaceAllTies(s, scores, reasons, headJudge, numRoutines, decided, ties, lone);
    outcome := Outcome(placements, reasons);
  }
}
