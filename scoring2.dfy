/** `competition` of scoring2.py: steps 1 and 2 only. Every judge is counted
    (no head judge is passed to the tallies), lone majority-reachers are
    written into their slots, and the slots of tied groups stay `None`; the
    result also returns `decided_placements`. */
module Scoring2 {
  import opened ScoreTable
  import opened Tally
  import opened RelativePlacementSpec
  import opened Ranking
  import opened SlotTable
  import opened CompetitionSpec
  import opened CompetitionSteps

  /** What scoring2's `competition` returns: `placements, reasons, decided_placements`. */
  datatype Preliminary = Preliminary(placements: Slots, reasons: Reasons, decided: map<int, Decided>)

  /** The panel of scoring2 whose size is that of routine `r`'s row: every judge counts. */
  ghost function Panel(scores: Table, headJudge: nat, r: Routine): Setup
    requires r in scores
  {
    Setup(scores, headJudge, Majority(|scores[r]|), true)
  }

  /** The result of steps 1 and 2 for panel `s`: the reasons table, each
      level's group, and the slots holding exactly the lone groups. */
  ghost predicate PreliminaryOf(s: Setup, result: Preliminary)
  {
    && result.reasons == ReasonTable(s)
    && DecidedFor(s, result.decided, Upto(s.N()))
    && Filled(s, result.placements, LoneLevels(s, s.N()))
  }

  /** `competition(scores, head_judge)` of scoring2.py: `None` when there is
      no routine (reading the first row fails). */
  method Competition(scores: Table, headJudge: nat) returns (result: Option<Preliminary>)
    ensures result == None <==> scores == map[]
    ensures result.Some? ==> exists r :: r in scores && PreliminaryOf(Panel(scores, headJudge, r), result.value)
  {
    if scores == map[] {
      return None;
    }
    NonEmptyHasMember(scores.Keys);
    var first :| first in scores;
    var outcome := Steps(scores, headJudge, first);
    result := Some(outcome);
  }

  /** Steps 1 and 2, the panel's size read from the row of `first`; the loop
      of step 3 reads a group and does nothing with it. */
  method Steps(scores: Table, headJudge: nat, first: Routine) returns (result: Preliminary)
    requires first in scores
    ensures PreliminaryOf(Panel(scores, headJudge, first), result)
  {
    var numJudges := |scores[first]|;
    var numRoutines := |scores|;
    var majority := (numJudges + 1) / 2;
    ghost var s := Setup(scores, headJudge, majority, true);
    var open := OpenSlots(numRoutines);
    var reasons := TallyReasons(s, scores, headJudge, true, numRoutines);
    var placements, decided, ties := Scan(s, scores, reasons, majority, numRoutines, open);
    result := Preliminary(placements, reasons, decided);
  }

  // ---------------------------------------------------------------------------
  // The preliminary slots against the full ranking of scoring.py.

  /** Every slot steps 1 and 2 write holds what the full ranking holds there. */
  lemma WrittenAgrees(s: Setup, a: Slots, slot: int)
    requires Filled(s, a, LoneLevels(s, s.N())) && slot in a && a[slot] != None
    ensures slot in Placements(s) && a[slot] == Placements(s)[slot]
  {
    var q, i := WrittenLevel(s, a, slot);
    FilledAgrees(s, a, LoneLevels(s, s.N()), q, i, slot);
    PlacementsAt(s, q, i, slot);
  }

  /** A written slot lies in the block of a lone level. */
  lemma WrittenLevel(s: Setup, a: Slots, slot: int) returns (q: int, i: int)
    requires Filled(s, a, LoneLevels(s, s.N())) && slot in a && a[slot] != None
    ensures q in LoneLevels(s, s.N()) && 1 <= q <= s.N()
    ensures 0 <= i < |GroupOrder(s, q)| && slot == StartAt(s, q) + i
  {
    ghost var blocks := Blocks(s);
    q :| q in LoneLevels(s, s.N()) && 0 <= q < |blocks|
         && BlockStart(blocks, q) <= slot < BlockStart(blocks, q) + |blocks[q]|;
    UptoIs(s.N(), q);
    BlockIs(s, q);
    BlockStartIs(s, q);
    i := slot - StartAt(s, q);
  }

  /** A lone majority-reacher sits in its level's first slot. */
  lemma LoneSlot(s: Setup, a: Slots, q: int, w: Routine)
    requires Filled(s, a, LoneLevels(s, s.N())) && 1 <= q <= s.N() && GroupAt(s, q) == {w}
    ensures StartAt(s, q) in a && a[StartAt(s, q)] == Some(w)
  {
    UptoIs(s.N(), q);
    LoneIsGroupOrder(s, a, q, w);
    FilledAgrees(s, a, LoneLevels(s, s.N()), q, 0, StartAt(s, q));
  }

  /** The slots of a tied group stay `None`. */
  lemma TiedSlotsOpen(s: Setup, a: Slots, q: int, i: int, slot: int)
    requires Filled(s, a, LoneLevels(s, s.N())) && 1 <= q <= s.N() && |GroupAt(s, q)| > 1
    requires 0 <= i < |GroupAt(s, q)| && slot == StartAt(s, q) + i
    ensures slot in a && a[slot] == None
  {
    GroupOrderLists(s, q);
    assert q !in LoneLevels(s, s.N());
    FilledOpen(s, a, LoneLevels(s, s.N()), q, i, slot);
  }
}
