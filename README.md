# Relative placement (skating system) ranking, modelled in Dafny

The repository scores subjectively judged contests, such as partner-dance competitions, with the
relative-placement ("skating") method. Each judge ranks every routine. The engine turns the panel's
ranks into one final order in three steps:

- **Tally.** For each routine and each place level `p`, count the judges who ranked the routine at
  `p` or better, and add up those ranks.
- **Majority scan.** Walk the levels in order. The routines that first reach a majority of judges at
  a level take the next places.
- **Tie cascade.** A group that reaches the majority at the same level is split by the smallest rank
  sum, then by the largest tally at deeper levels. Once the levels run out, the head judge's own
  ranks settle what is left.

The repository holds three variants of this engine. Each is modelled on its own, with its own
branches:

- **`Relative_Placement.py`.** A class whose constructor fills a trace table
  (`relative_placements`) and the final places (`final_placements`). It has separate sum
  (`__ties`) and count (`__down`) phases.
- **`scoring.py`.** `competition` fills a `placements` dict that maps each slot to the routine placed
  there. Its nested, recursive `place_ties` switches criterion on a string flag.
- **`scoring2.py`.** `competition` stops after the majority scan. The slots of tied groups stay
  `None`.

## How the model is organised

- `score_table.dfy` (`ScoreTable`) defines the score table.
  - A routine is an `int`.
  - A row is `seq<int>`: judge `j` of the source is position `j - 1`.
  - A table is `map<Routine, Row>`.
  - The judge left out of tallies is an `Option<nat>`.
- `tally.dfy` (`Tally`) holds the tally and rank sum that all three variants share. This covers
  `count_placements` / `sum_placements` and `__count` / `__sum`, together with their accumulator
  loops.
- The class variant:
  - `rp_spec.dfy` (`RelativePlacementSpec`) holds the constructor's arguments and the closed form
    of the trace that `__fill_columns` builds.
  - `placement.dfy` (`Placement`):
    - defines what it means to give a group a block of consecutive places;
    - defines the min/max groups;
    - gives the head-judge order.
  - `tiebreak.dfy` (`Tiebreak`) specifies `__ties`, `__down` and `__chiefjudgetie` as the places
    they hand out.
  - `tiebreak_run.dfy` (`TiebreakRun`) specifies them again as what they do to the object's state:
    the trace annotations and the final places.
  - `ranking.dfy` (`Ranking`) specifies `__cathunk`, the places it hands out and the ordering laws
    of the whole ranking.
  - `rp_class.dfy` (`RelativePlacementClass`) is the class itself, whose methods update its fields.
    Each method is proved against the functions above. The winner searches are loops over the
    working group.
  - `rp_sample.dfy` (`RelativePlacementSample`) ranks the six-routine sample table of the module.
- The `scoring.py` / `scoring2.py` variants:
  - `slots.dfy` (`SlotTable`) models the `placements` dict as `map<int, Option<Routine>>`, with a
    block of consecutive slots for each level.
  - `scoring_ties.dfy` (`ScoringTies`) gives the order in which `place_ties` fills its slots.
  - `competition_spec.dfy` (`CompetitionSpec`) gives the closed form of steps 1–4.
  - `competition.dfy` (`CompetitionSteps`) holds the loops of steps 1 and 2, which both files share.
  - `scoring.dfy` (`Scoring`) holds steps 3–4 and the whole `competition` of scoring.py.
  - `scoring2.dfy` (`Scoring2`) holds the `competition` of scoring2.py.
  - `prelims.dfy` (`Prelims`) holds `prelims`.
  - `scoring_sample.dfy` (`ScoringSample`) runs the sample table through both variants.

Python dict iteration order is not modelled. Groups are sets, and every result is proved
independent of the order in which a loop visits a group. The `requires` clauses of the class and of
`competition` are the conditions under which the source returns normally and places a group in full (see
"Left out").

Notes on the code that the model follows:

- **The six-routine sample and the head judge.** scoring.py's docstring marks J5 with `*` as head
  judge (scoring.py:10). Yet its table, like the one in Relative_Placement.py:1-17, counts all five
  judges: routine 6's `1-1` column is 1 only because J5 ranked it first. scoring.py:191-194 says the
  head judge is usually included. The model's sample therefore counts every judge, names J5 as head
  judge, and reproduces the docstring's order, 1, 6, 3, 2, 5, 4.
- **The module's own call.** Relative_Placement.py:316 calls `Relative_Placements(new_scores, 7, 3,
  False)`. Judge 7 is on no row, so leaving that judge out changes no tally or sum
  (`Tally.AbsentJudgeExcludesNobody`, `RelativePlacementSample.ModuleCallTallies`). The class model
  still needs the head judge on the panel (see "Left out"), so the sample is ranked with J5.
- **A routine that never reaches the majority.**
  - `scoring.py` places only the routines that reach the majority at some level 1 .. N. The slots
    of the others stay `None`: see `CompetitionSpec.OrderLists` and `CompetitionSpec.EveryoneSlotted`.
  - In `Relative_Placement.py`, `__fill_columns` recurses one level deeper per call
    (Relative_Placement.py:43) for such a routine, until Python's recursion limit raises
    `RuntimeError`. The class therefore requires `Finishes()`.
- **Head judge in the tallies.** The three variants differ:
  - the class leaves the head judge out when `include` is false;
  - `scoring.py` leaves the head judge out when `included` is false;
  - `scoring2.py` always counts every judge.

  Each variant is modelled as written.
- **What `placements` maps.** The docstring of `competition` says `placements` maps routine to
  place. The code keys it by slot (scoring.py:217, 245, 264), and so does the model.

## Model

| member | source | states |
|---|---|---|
| Tally.CountPlacements | scoring.py:119-124 | The accumulator loop returns the number of judges, other than the excluded head judge, who ranked the routine at or better than `placement`. The loop is the same in scoring2.py (lines 119-124). |
| Tally.SumPlacements | scoring.py:87-92 | The accumulator loop returns the sum of exactly those ranks. The loop is the same in scoring2.py (lines 87-92). |
| Tally.CountIsLoopTally | scoring.py:121-123 | The tally as a count of judges equals the judge-by-judge running tally of the loop. |
| Tally.Majority | scoring.py:211 | `(num_judges + 1) / 2` is the smallest count that is at least half the panel: `2m >= n` and `2m <= n + 1`. |
| Tally.TallyMonotone | scoring.py:90 | Tally and rank sum never decrease as the placement grows. |
| Tally.TallySaturates | scoring.py:122 | Once the placement is at least the row's largest rank, the tally equals the number of counted judges. |
| Tally.TallyAtMostCounted | scoring.py:119-124 | The tally never exceeds the number of counted judges. |
| Tally.ReachedNeedsCountedJudges | Relative_Placement.py:42 | A routine can reach the majority only if at least that many judges are counted. |
| Tally.HeadJudgeContribution | Relative_Placement.py:163-168 | Counting every judge adds exactly the head judge's contribution to the tally and to the sum: 1 and the rank when that rank is within the level, 0 and 0 otherwise. |
| Tally.AbsentJudgeExcludesNobody | Relative_Placement.py:316 | Leaving out a judge who is on no row, as the module's own call does with judge 7, changes neither tally nor sum. |
| RelativePlacementClass.RelativePlacements.CountPlaces | Relative_Placement.py:162-169 | `__count` counts the judges ranking at or better than `place`. The head judge is left out exactly when `include` is false. |
| RelativePlacementClass.RelativePlacements.SumPlaces | Relative_Placement.py:172-179 | `__sum` adds up the same ranks, under the same rule for the head judge. |
| RelativePlacementSpec.RecordAllInv | Relative_Placement.py:36-42 | One pass of `__fill_columns` records each pending routine's tally at `place`. Only the routines still below the majority remain pending. |
| RelativePlacementSpec.NextPending | Relative_Placement.py:42 | A routine is pending at `place + 1` if and only if it was pending at `place` and its tally there is below the majority. |
| RelativePlacementSpec.StaysReached | Relative_Placement.py:42 | A routine that has reached the majority at a level still has it at every later level. |
| RelativePlacementSpec.PendingBelowBound | Relative_Placement.py:35-43 | While a routine is pending, the level stays within the table's largest rank, so the recursion ends. |
| RelativePlacementSpec.FillTraceRecorded | Relative_Placement.py:34-43 | The trace holds the routine's tally at levels 1 .. k, where k is its first majority level. It holds no level beyond k. |
| RelativePlacementSpec.RecordedUnique | Relative_Placement.py:34-43 | Two traces that both record every routine as above are equal. |
| RelativePlacementSpec.FillTraceTrue | Relative_Placement.py:37-41 | Every cell of the filled trace holds the routine's true tally at that level. |
| RelativePlacementClass.RelativePlacements.FillLevel | Relative_Placement.py:36-42 | The loop over the pending routines records `RecordAll` of the old trace. `rest` is exactly the pending routines without those reaching the majority, and the final places are unchanged. |
| RelativePlacementClass.RelativePlacements.FillOne | Relative_Placement.py:37-42 | One loop iteration keeps the fill state, shrinks the work set and leaves the final places alone. |
| RelativePlacementClass.RelativePlacements.FillColumns | Relative_Placement.py:34-43 | The recursion leaves `relative_placements` equal to the closed-form trace `FillTrace`. The final places are unchanged. |
| RelativePlacementClass.ReachingIsReached | Relative_Placement.py:47-51 | On the copied trace, the routines whose recorded tally reaches the majority are exactly those that reach it. The remaining dict holds the rest. |
| RelativePlacementClass.RelativePlacements.SplitMajorities | Relative_Placement.py:47-51 | `majorities` is the set of routines whose recorded count at `place` reaches the majority, without repeats, so `x` at line 52 is its size. The working dict loses exactly those. |
| RelativePlacementClass.SearchDone | Relative_Placement.py:74-97 | After the winner search, `tie` is empty or has two or more routines. `{winner}` (no tie) or `tie` is exactly the group with the smallest sum, or in the count phase the largest tally. |
| RelativePlacementClass.RelativePlacements.SumWinners | Relative_Placement.py:71-97 | Every routine of the group gets its `{count, sum}` annotation at `place`. The final places are unchanged. `{winner}` or `tie` is the minimal-sum group. |
| RelativePlacementClass.RelativePlacements.CompareSums | Relative_Placement.py:79-97 | One iteration of the sum search keeps its invariant and leaves the final places alone. |
| RelativePlacementClass.RelativePlacements.CountWinners | Relative_Placement.py:119-136 | Every routine of the group has its bare tally written at `place`. The final places are unchanged. `{winner}` or `tie` is the maximal-tally group. |
| RelativePlacementClass.RelativePlacements.VisitCount | Relative_Placement.py:122-136 | One iteration of the count search keeps its invariant and leaves the final places alone. |
| RelativePlacementClass.AnnotatedIsCompared | Relative_Placement.py:81-90 | Annotating every compared routine with its own sum is the sum phase's trace update `CompareAll`. |
| RelativePlacementClass.TalliedIsTallied | Relative_Placement.py:123-124 | Overwriting every routine's cell with its tally is the count phase's trace update `TallyAll`. |
| RelativePlacementClass.RelativePlacements.SumStep | Relative_Placement.py:71-97 | The sum search changes only the trace, by `CompareAll`. The winner alone, or the tie of two or more, is the group with the smallest sum. |
| RelativePlacementClass.RelativePlacements.CountStep | Relative_Placement.py:119-136 | The count search changes only the trace, by `TallyAll`. The winner alone, or the tie of two or more, is the group with the largest tally. |
| RelativePlacementClass.RelativePlacements.HeadJudgeScores | Relative_Placement.py:152-155 | The dict built maps each tied routine's head-judge rank to a routine of the group that has that rank. |
| RelativePlacementClass.RelativePlacements.PlaceNext | Relative_Placement.py:156-158 | One iteration takes the smallest remaining rank, places its routine at `placement` and advances. The trace is untouched. |
| RelativePlacementClass.RelativePlacements.ChiefJudgeTie | Relative_Placement.py:151-159 | The trace is unchanged. With distinct head-judge ranks, the group takes consecutive places from `placement` in ascending head-judge order. |
| Placement.HeadOrderIsPlacement | Relative_Placement.py:151-159 | With distinct ranks, the head-judge order gives the group exactly the places `k .. k + |g| - 1`, one each. |
| Placement.HeadOrderRespectsRank | Relative_Placement.py:156-158 | A lower head-judge rank gets a lower place. |
| RelativePlacementClass.RelativePlacements.PlaceAlone | Relative_Placement.py:67-70 | A group of one is placed at `placement` and nothing else changes. This is also the branch at lines 115-118. |
| RelativePlacementClass.RelativePlacements.Ties | Relative_Placement.py:62-107 | `__ties` leaves the object in state `TiesRun`: head-judge fallback beyond the last level, direct placement of a group of at most one, otherwise a sum search followed by its split. |
| RelativePlacementClass.RelativePlacements.TiesTied | Relative_Placement.py:98-104 | A minimal-sum tie of two or more goes to `__down` one level deeper. The rest stay in `__ties` at the same level, from `placement + x`. |
| RelativePlacementClass.RelativePlacements.TiesLone | Relative_Placement.py:105-107 | A strictly smallest sum takes `placement`. The rest stay in `__ties` at the same level, from `placement + 1`. |
| RelativePlacementClass.RelativePlacements.Down | Relative_Placement.py:109-149 | `__down` leaves the object in state `DownRun`: fallback, direct placement, or a count search followed by its split. |
| RelativePlacementClass.RelativePlacements.DownLone | Relative_Placement.py:137-141 | A unique largest tally takes `placement`. The rest stay in `__down` at the same level. |
| RelativePlacementClass.RelativePlacements.DownTied | Relative_Placement.py:142-148 | A maximal-tally tie goes to `__down` one level deeper. The rest go to `__ties` at the same level, from `placement + x`. |
| Tiebreak.TiesPlacement | Relative_Placement.py:62-107 | The sum phase gives its group exactly the places `k .. k + |g| - 1`, a different one to each routine. |
| Tiebreak.DownPlacement | Relative_Placement.py:109-149 | The count phase gives its group exactly the places `k .. k + |g| - 1`, a different one to each routine. |
| Tiebreak.TiesTiedPlacement | Relative_Placement.py:98-104 | A tied sub-group of size x takes `k .. k + x - 1`. The rest take the following places. |
| Tiebreak.TiesLonePlacement | Relative_Placement.py:105-107 | A lone winner takes `k` and the rest take `k + 1` onward. |
| Tiebreak.DownTiedPlacement | Relative_Placement.py:142-148 | In the count phase, a tied sub-group takes the first x places and the rest the following places. |
| Tiebreak.DownLonePlacement | Relative_Placement.py:137-141 | In the count phase, a lone winner takes `k` and the rest take `k + 1` onward. |
| Tiebreak.TiesOrder | Relative_Placement.py:91-107 | Within a group in the sum phase, a routine with a strictly smaller sum at the level is placed before one with a larger sum. |
| Tiebreak.SumTieKeepsOrder | Relative_Placement.py:98-102 | Within the minimal-sum tie, the order that `__down` decides one level deeper is the final order. |
| Tiebreak.DownLeadersFirst | Relative_Placement.py:133-148 | In the count phase, every routine with the largest tally is placed before every other routine of the group. |
| Tiebreak.FallbackOrder | Relative_Placement.py:63-65 | Beyond the last level, in either phase, the lower head-judge rank is placed first. This also covers the fallback at lines 110-112. |
| TiebreakRun.TiesRunFinal | Relative_Placement.py:62-107 | The final places after `__ties` are the old ones plus exactly the places the sum phase hands out. |
| TiebreakRun.DownRunFinal | Relative_Placement.py:109-149 | The final places after `__down` are the old ones plus exactly the places the count phase hands out. |
| TiebreakRun.TiesRunKeeps | Relative_Placement.py:81-90 | `__ties` touches only the trace rows of its own group, keeps the trace's routines, and writes only true tallies and sums. |
| TiebreakRun.DownRunKeeps | Relative_Placement.py:123-124 | `__down` touches only the trace rows of its own group, keeps the trace's routines, and writes only true tallies. |
| RelativePlacementClass.LevelNone | Relative_Placement.py:53 | When no routine reaches the majority, the walk moves one level down without using a place. |
| RelativePlacementClass.LevelOne | Relative_Placement.py:54-56 | A lone majority-reacher takes `placement`, and the walk continues one level down from `placement + 1`. |
| RelativePlacementClass.LevelTied | Relative_Placement.py:57-58 | A group of two or more majority-reachers goes to `__ties` at that level from `placement`. |
| RelativePlacementClass.RelativePlacements.Cathunk | Relative_Placement.py:45-59 | `__cathunk` leaves the object in state `CathunkRun`. It empties the working dict, so the second recursive call at line 59 does nothing. |
| RelativePlacementClass.RelativePlacements.CathunkLevel | Relative_Placement.py:47-59 | One level, dispatched on the size of the majority group, reaches the state `CathunkRun` promises. |
| RelativePlacementClass.RelativePlacements.CathunkNone | Relative_Placement.py:53 | With no majority-reacher, the state is that of the walk from the next level, from the same placement. |
| RelativePlacementClass.RelativePlacements.CathunkOne | Relative_Placement.py:54-56 | A lone majority-reacher is awarded `placement`, and the walk continues from `placement + 1`. |
| RelativePlacementClass.RelativePlacements.CathunkOneBelow | Relative_Placement.py:55-56 | The award, then the walk one level down from `placement + 1`. |
| RelativePlacementClass.RelativePlacements.CathunkTied | Relative_Placement.py:57-59 | A tied group goes through `__ties`, then the walk continues one level down from `placement + x`. |
| RelativePlacementClass.RelativePlacements.CathunkTiedBelow | Relative_Placement.py:58-59 | `__ties` on the group, then the rest one level down from `placement + x`. |
| RelativePlacementClass.RelativePlacements.Rank | Relative_Placement.py:30-31 | Filling the columns and then running `__cathunk` from level 1 and place 1 leaves the object in state `Ranked`. |
| RelativePlacementClass.RelativePlacements.constructor | Relative_Placement.py:20-31 | The constructor keeps its arguments. `final_placements` equals `FinalPlaces` and maps every routine to a different place in 1 .. N. `relative_placements` has a row for each routine holding only true tallies and sums. |
| Ranking.RankedFinal | Relative_Placement.py:30-31 | The final places of the object's state walk are exactly `FinalPlaces`. |
| Ranking.RankedTraceTrue | Relative_Placement.py:21 | The trace left by the constructor has exactly the table's routines and holds only true tallies, or tallies with sums. |
| Ranking.CathunkRunFinal | Relative_Placement.py:45-59 | The state walk of `__cathunk` adds exactly the places `CathunkFinal` hands out. |
| Ranking.CathunkRunKeeps | Relative_Placement.py:45-59 | `__cathunk` touches only the trace rows of the pending routines, and keeps the trace true. |
| Ranking.LevelPlacement | Relative_Placement.py:54-58 | One level's majority group takes exactly the places `k .. k + |m| - 1`. |
| Ranking.CathunkPlacement | Relative_Placement.py:45-59 | The routines pending at a level take exactly the places `k .. k + |pending| - 1`, one each. |
| Ranking.FinalIsRanking | Relative_Placement.py:45-59 | `final_placements` maps every routine to a different place in 1 .. N. |
| Ranking.PendingAtNext | Relative_Placement.py:48-51 | The routines pending at a level split into that level's majority group and those still pending one level down. |
| Ranking.StartNext | Relative_Placement.py:59 | The placement handed to the next level is this level's placement plus the size of its group. |
| Ranking.FinalByLevel | Relative_Placement.py:47-59 | A routine that first reaches the majority at level p gets the place that level's group hands it. That place lies in the group's block, which starts at the total size of the earlier groups plus one. |
| Ranking.MajorityOrder | Relative_Placement.py:47-53 | If r has the majority at a level and q does not, r is placed before q. |
| Ranking.LevelOrder | Relative_Placement.py:58 | Within one level's group, the order the tie-breaks give is the final order. |
| Ranking.SumOrder | Relative_Placement.py:74-107 | Of two routines first reaching the majority at the same level p ≤ N, the one with the smaller sum at p is placed first. |
| Ranking.TieCountOrder | Relative_Placement.py:98-102 | Of two routines tied on the smallest sum at p, the one with the larger tally at `p + 1` is placed first, provided p + 1 ≤ N. |
| RelativePlacementSample.SampleValid | Relative_Placement.py:276-283 | The sample table satisfies the class's precondition: every routine can reach the majority, and the head judge ranked every routine with distinct ranks. |
| RelativePlacementSample.ModuleCallTallies | Relative_Placement.py:316 | Under the module's own call, which leaves out judge 7 (on no row), every routine of the sample has the same tallies and sums as in the sample the model ranks. |
| RelativePlacementSample.SampleSums | Relative_Placement.py:8-14 | At level 4, routines 2, 3 and 5 have sums 7, 7 and 9, the `3(7)`, `3(7)` and `3(9)` of the table. |
| RelativePlacementSample.SampleCounts | Relative_Placement.py:8-10 | At level 5, routines 2 and 3 have tallies 4 and 5. |
| RelativePlacementSample.SampleSumTie | Relative_Placement.py:8-14 | The level-4 group ties routines 2 and 3 on the smallest sum. |
| RelativePlacementSample.SampleCountTie | Relative_Placement.py:8-10 | One level down, routine 3 alone has the largest tally. |
| RelativePlacementSample.SampleOneBeforeSix | Relative_Placement.py:6-16 | Routine 1 is placed before routine 6. |
| RelativePlacementSample.SampleSixBeforeThree | Relative_Placement.py:10-16 | Routine 6 is placed before routine 3. |
| RelativePlacementSample.SampleThreeBeforeTwo | Relative_Placement.py:8-10 | Routine 3 is placed before routine 2. |
| RelativePlacementSample.SampleTwoBeforeFive | Relative_Placement.py:8-14 | Routine 2 is placed before routine 5. |
| RelativePlacementSample.SampleFiveBeforeFour | Relative_Placement.py:12-14 | Routine 5 is placed before routine 4. |
| RelativePlacementSample.SampleRanking | Relative_Placement.py:2-16 | The final places of the sample are 1→1, 6→2, 3→3, 2→4, 5→5, 4→6, the docstring table's last column. |
| SlotTable.UptoIs | scoring.py:217 | The levels and slots `range(1, num_routines + 1)` are exactly 1 .. N. |
| SlotTable.PutAt | scoring.py:263-265 | Writing a list into consecutive slots from `place` fills exactly those slots with the list's routines, in order, and leaves every other slot alone. |
| CompetitionSteps.OpenSlots | scoring.py:217 | The placements start with slots 1 .. N, all `None`. |
| CompetitionSteps.ReasonAt | scoring.py:221-230 | Each reason holds the tally and the sum at that level. The head judge is left out exactly when `included` is false. |
| CompetitionSteps.RoutineReasons | scoring.py:219-230 | A routine's reasons cover exactly the levels 1 .. N. |
| CompetitionSteps.TallyReasons | scoring.py:216-230 | Step 1 builds exactly the reasons table: each routine, each level 1 .. N, the true tally and sum. scoring2.py (lines 216-224) builds the same table, always counting every judge. |
| CompetitionSteps.JoinsGroup | scoring.py:239-240 | A routine joins a level's group if and only if its tally reaches the majority and it is not already decided. |
| CompetitionSteps.VisitRoutine | scoring.py:238-243 | One iteration of the inner scan keeps the group, its count and `decided_routines` consistent. |
| CompetitionSteps.DecideLevel | scoring.py:236-243 | `decided_placements[place]` lists every routine first reaching the majority at the level, once each, with its count. `decided_routines` grows by that list. |
| CompetitionSteps.LoneNext | scoring.py:244-245 | A group of one is written into its level's first slot. |
| CompetitionSteps.TiesNext | scoring.py:246-247 | A group of two or more is recorded in `ties`, keyed by its first slot. |
| CompetitionSteps.TieBefore | scoring.py:248 | A non-empty earlier level starts at an earlier slot. |
| CompetitionSteps.ScanLevel | scoring.py:236-248 | One level of the scan keeps the scan invariant: groups decided, lone groups written, ties keyed by first slot, and `current_placement` at the next level's first slot. |
| CompetitionSteps.Scan | scoring.py:232-248 | After step 2, `decided_placements` lists each level's group, the lone groups fill their slots (every other slot is `None`), and `ties` maps the first slot of every tied group to its level. scoring2.py runs the same scan (lines 226-242). |
| CompetitionSpec.BlockEnd | scoring.py:248 | `current_placement` advances by the group size, so each level's block ends where the next one starts. |
| CompetitionSpec.StartBound | scoring.py:248 | Every level's first slot lies in 1 .. N + 1. |
| CompetitionSpec.ReachedSplit | scoring.py:240-243 | The routines decided by the end of level p are those decided before it plus p's group, and the two are disjoint. |
| CompetitionSpec.OrderLength | scoring.py:248 | The slot order has as many routines as the groups hold together, and no more than N. |
| CompetitionSpec.OrderLists | scoring.py:236-248 | The final slot order lists every routine that reaches the majority at some level 1 .. N exactly once, and no other routine. |
| CompetitionSpec.EveryoneSlotted | scoring.py:236-243 | When every routine has enough counted judges and no rank exceeds N, every routine is given a slot. |
| CompetitionSpec.EarlierLevelFirst | scoring.py:236-248 | A routine that reaches the majority at an earlier level is put in an earlier slot. |
| CompetitionSpec.WithinLevel | scoring.py:284-286 | Within a level, the order `place_ties` gives is the slot order. |
| CompetitionSpec.PlacementsAt | scoring.py:284-286 | The slot at the i-th position of level q's block holds the i-th routine of that level's order. |
| CompetitionSpec.PlacementsSlots | scoring.py:217 | The returned `placements` has exactly the slots 1 .. N. The slots after the last group are `None`. |
| CompetitionSpec.OneSlotEach | scoring.py:245-286 | No routine is written into two slots: two slots holding the same routine are the same slot. |
| CompetitionSpec.GroupOrderLists | scoring.py:251-282 | Each level's order lists its group once each. |
| CompetitionSpec.FilledIsPlacements | scoring.py:284-288 | Once every non-empty level's block is written, the slots are exactly the returned `placements`. |
| ScoringTies.PlaceTiesLists | scoring.py:251-282 | `place_ties` on k routines lists each of them exactly once, so it fills exactly the slots `p .. p + k - 1`. |
| ScoringTies.ByRankLists | scoring.py:258-265 | The fallback lists its group exactly once. |
| ScoringTies.ByRankOrder | scoring.py:263-265 | The fallback puts the lower head-judge rank in the earlier slot. |
| ScoringTies.LeadersFirst | scoring.py:267-281 | The leaders come before every other routine of the group: the smallest sums under `'sum'`, the largest tallies under `'tally'`. |
| ScoringTies.SumRule | scoring.py:268-276 | Under `'sum'`, a strictly smaller sum at the level goes first. |
| ScoringTies.LoneLeaderThenSums | scoring.py:272-275 | After a lone `'tally'` leader, the rest are ordered by the smallest sum again. |
| ScoringTies.TiedLeadersKeepOrder | scoring.py:278 | The order of a tied sub-group is the one `place_ties` gives it one level down under `'tally'`. |
| ScoringTies.FallbackOrder | scoring.py:257-266 | Once `count >= num_routines`, the lower head-judge rank goes first, whatever the flag. |
| Scoring.HeadJudgeScores | scoring.py:258-261 | The dict maps each routine's head-judge rank to a routine with that rank. |
| Scoring.FallbackStep | scoring.py:263-265 | One iteration writes the routine with the next smallest rank and advances the slot. |
| Scoring.HeadJudgePlaces | scoring.py:257-266 | The fallback writes the group in ascending head-judge order into consecutive slots from `place`. |
| Scoring.TheDict | scoring.py:267 | `the_dict` maps each routine to its sum under `'sum'` and to its tally under `'tally'`, at level `count`. |
| Scoring.Extreme | scoring.py:268 | `min` / `max` by `the_dict` returns a leader: a routine of the group whose value no other routine beats. |
| Scoring.CollectStep | scoring.py:269-271 | One iteration adds the routine to `new_routines` exactly when its value equals the leader's. |
| Scoring.TieLeaders | scoring.py:267-271 | `new_routines` is exactly the leaders: the minimal-sum or maximal-tally group. |
| Scoring.PlaceOne | scoring.py:253-255 | A single routine is written into `place`. |
| Scoring.PlaceLone | scoring.py:272-276 | The lone leader takes `place`. The rest continue at the same level under `'sum'` from `place + 1`. |
| Scoring.PlaceTied | scoring.py:277-281 | The sub-group goes one level down under `'tally'` from `place`. The rest continue under `'sum'` from `place + len(new_routines)`. |
| Scoring.PlaceTies | scoring.py:251-282 | `place_ties` writes its group into the slots from `place` on, in the order `PlaceTiesOrder`. |
| Scoring.TieStep | scoring.py:284-286 | Each tied group, once placed, fills its own block and adds its level to the filled ones. |
| Scoring.PlaceAllTies | scoring.py:284-286 | After every tied group is placed, the slots are exactly `Placements`: level after level, each in its `place_ties` order. |
| Scoring.OnePanelExpected | scoring.py:209 | When all rows have the same length, the outcome does not depend on which row `num_judges` is read from. |
| Scoring.Rank | scoring.py:209-288 | Steps 1–4 for the panel size read off one row return `Placements` and the reasons table. |
| Scoring.Competition | scoring.py:157-288 | `None` exactly for an empty table, where reading the first row fails. Otherwise the placements and reasons of the panel sized by some routine's row. |
| Scoring2.Steps | scoring2.py:209-250 | Steps 1 and 2 return the reasons table, `decided_placements` listing each level's group, and slots holding exactly the lone groups. The step-3 loop does nothing. |
| Scoring2.Competition | scoring2.py:157-250 | `None` exactly for an empty table. Otherwise the result of steps 1 and 2 for some row's panel size. |
| Scoring2.WrittenAgrees | scoring2.py:238-239 | Every slot scoring2.py writes holds what scoring.py's full ranking holds there. |
| Scoring2.LoneSlot | scoring2.py:238-239 | A lone majority-reacher sits in its level's first slot. |
| Scoring2.TiedSlotsOpen | scoring2.py:244-250 | Every slot of a tied group stays `None`. |
| Prelims.Entries | scoring2.py:152-154 | The loop builds exactly one tuple per routine: the routine, its row, and its sum of ranks up to 3 without the head judge. |
| Prelims.SortCorrect | scoring2.py:155 | Sorting by the sum gives a list ascending by sum that is a permutation of its input. |
| Prelims.OnePerRoutine | scoring2.py:152-155 | The result has one tuple per routine, each with that routine's row and sum. |
| Prelims.PrelimsAsWritten | scoring2.py:155 | As written, `prelims` never returns a list: `operator` is not imported. scoring.py (line 155) has the same defect. |
| Prelims.Prelims | scoring2.py:149-155 | With `operator` imported: `None` for an empty table, otherwise the tuples of every routine ascending by sum. The same holds for scoring.py (lines 149-155). |
| ScoringSample.SampleShape | scoring.py:12-22 | For the sample, levels 2, 3 and 5 have single routines 1, 6 and 4. Level 4 holds three routines. The blocks start at slots 1, 2, 3 and 6. |
| ScoringSample.SampleBlocks | scoring.py:12-22 | The sample's per-level orders are [1], [6], [3, 2, 5], [4]. |
| ScoringSample.SamplePlacements | scoring.py:12-22 | The sample fills slots 1..6 with routines 1, 6, 3, 2, 5, 4. |
| ScoringSample.SampleCompetition | scoring.py:12-22 | `competition` on the sample, counting every judge, returns slots 1..6 holding 1, 6, 3, 2, 5, 4, as in the docstring table. |
| ScoringSample.SamplePreliminary | scoring2.py:260-267 | The preliminary slots of the sample hold 1, 6, None, None, None, 4. |
| ScoringSample.SampleScoring2 | scoring2.py:260-267 | scoring2.py's `competition` on the sample returns 1, 6, None, None, None, 4 as its placements. |

## Left out

- **Printing and I/O.** Report formatting and printing are not modelled: `__str__`, `pprint`, `pprint_relative_placements`, `pprint_final_placements`, the `__main__` blocks and argument parsing.
- **The fallback's `print`.** The `print` inside the fallback of `place_ties` (scoring.py:262) is output only.
- **Parsing and storage.** Score files are parsed elsewhere; the model takes the table as given. Storage, the views and the command line are not part of this model.
- **Dict iteration order.** Dict iteration order is not modelled. Groups are sets, and no result depends on the order in which a loop visits them.
- **The head-judge fallbacks.** Both fallbacks (Relative_Placement.py:151-159, scoring.py:257-266) iterate a dict keyed by rank. They are modelled as an ascending sort by the head judge's rank. The class, `Scoring.Competition` and `Scoring.HeadJudgePlaces` require distinct head-judge ranks (`DistinctRanks` in `Valid` / `Placeable`). With equal ranks the source silently drops a routine; the model does not cover that.
- **Preconditions stronger than the source's.** `RelativePlacementClass.RelativePlacements.constructor` and `Scoring.Competition` require the head judge to sit on every row (`HeadJudgeOnPanel`). The source looks the head judge up only once a group reaches the fallback, so a table that never gets there runs without the head judge on the panel.
- **`RelativePlacementClass.RelativePlacements.constructor`** requires `Finishes()`: every routine has enough counted judges to reach the majority. Without it `__fill_columns` recurses one level deeper per call until Python's recursion limit raises `RuntimeError`. The model does not describe that failure.
- **Python's recursion limit.** The limit is not modelled anywhere. That covers `__fill_columns` and `__cathunk`, whose depth grows with the number of levels, and `__ties`, `__down` and `place_ties`, whose depth grows with the size of a group. The model treats every recursion as running to completion.
- **`Scoring.Competition`** states only that `num_judges` is read from some row, because which row the dict yields first is not modelled. `Scoring.OnePanelExpected` shows that this does not matter when all rows have the same length.
- **`ScoringTies.PlaceTiesOrder`** (and every ordering lemma built on it) models the identity tests of `place_ties` (`is 0`, `is 1`, `i is 'sum'`, `v is the_dict[...]`, `not r is new_routines[0]`, scoring.py:252-270) as value equality. For large integers CPython's `is` can be false where `==` is true; the model does not follow that.
- **Lists as sets.** The `routines` lists that `place_ties` removes items from, and the groups the class deletes from its working dicts, are modelled as sets. Each group is proved to hold each routine once.
- **`Tally.CountPlacements`** models `not judge is head_judge` as inequality of judge positions, with the same caveat about `is`.
- **Stability of `sorted`.** `Prelims.SortCorrect` proves sortedness and permutation only. That the sort is stable (equal sums keep their input order) is not stated, since the input order is dict order.
- **Unused values in `prelims`.** `prelims` ignores its `size` argument and never uses the `num_judges` it computes (scoring.py:149). The model reads neither.
- **Fixtures not ranked.** The sample tables `test_chief_judge` and `tjScores` (Relative_Placement.py:285-304), and the eleven-routine table of scoring2.py's `__main__`, are not ranked in the model. Only the six-routine table is.
- **Python 2 integer division.** `(num_judges + 1) / 2` is modelled by Dafny's division. The two agree because the operands are never negative.

## Findings

| source | as written | input that shows it | evidently intended | confidence | as-written member | corrected member |
|---|---|---|---|---|---|---|
| scoring.py:155 | `sorted(placements, key=operator.itemgetter(2))` refers to `operator`, which scoring.py never imports, so every call with a non-empty table raises `NameError` | any non-empty table, e.g. `{1: {1: 1}}` | import `operator` and return the tuples sorted ascending by sum | not executed | Prelims.PrelimsAsWritten | Prelims.Prelims |
| scoring2.py:155 | the same unimported `operator` in scoring2.py's `prelims` | any non-empty table, e.g. `{1: {1: 1}}` | the same | not executed | Prelims.PrelimsAsWritten | Prelims.Prelims |
