/** What `competition` in scoring.py and scoring2.py computes, level by
    level: the tallies and sums of step 1, the groups of routines first
    reaching the majority at each level (step 2), and the slot order scoring.py
    reaches once `place_ties` has ordered every tied group (steps 3 and 4). */
module CompetitionSpec {
  import opened ScoreTable
  import opened Tally
  import opened Placement
  import opened Tiebreak
  import opened RelativePlacementSpec
  import opened Ranking
  import opened SlotTable
  import opened ScoringTies

  /** Every routine was ranked by the same panel: `num_judges` is read off
      whichever row the dict yields first, so the rows must agree on it. */
  ghost predicate OnePanel(scores: Table)
  {
    forall r, q :: r in scores && q in scores ==> |scores[r]| == |scores[q]|
  }

  /** The panel `competition(scores, head_judge, included)` scores:
      majority `(num_judges + 1) / 2`, the head judge left out of tallies and
      sums unless `included`. */
  ghost function Contest(scores: Table, headJudge: nat, included: bool): Setup
    requires scores != map[]
  {
    NonEmptyHasMember(scores.Keys);
    var r :| r in scores;
    Setup(scores, headJudge, Majority(|scores[r]|), included)
  }

  /** What the head-judge fallback needs to place a group in full: the head
      judge ranked every routine, and no two alike (the fallback keys a dict
      by those ranks). */
  ghost predicate Placeable(s: Setup)
  {
    s.HeadJudgeOnPanel() && DistinctRanks(s.places.Keys, s.HeadRanks())
  }

  // ---------------------------------------------------------------------------
  // Step 1: the reasons table.

  /** `reasons[routine][place]`: the tally and the sum at one level. */
  datatype Reason = Reason(tally: nat, sum: int)

  type Reasons = map<Routine, map<int, Reason>>

  /** One routine's reasons at every level 1 .. N. */
  ghost function ReasonRow(s: Setup, r: Routine): map<int, Reason>
    requires r in s.places
  {
    map p | p in Upto(s.N()) :: Reason(s.CountAt(r, p), s.SumAt(r, p))
  }

  ghost function ReasonTable(s: Setup): Reasons
  {
    map r | r in s.places :: ReasonRow(s, r)
  }

  // ---------------------------------------------------------------------------
  // Step 2: the groups, and their blocks of slots.

  /** `decided_placements[place]`: how many routines first reached the
      majority at the level, and which. */
  datatype Decided = Decided(count: nat, routines: seq<Routine>)

  /** `decided` has an entry for each level of `levels`, listing that
      level's group once each, with its size. */
  ghost predicate DecidedFor(s: Setup, decided: map<int, Decided>, levels: set<int>)
  {
    && decided.Keys == levels
    && (forall q :: q in decided ==> decided[q].count == |decided[q].routines|)
    && (forall q :: q in decided ==> Lists(decided[q].routines, GroupAt(s, q)))
  }

  /** `ties` maps the first slot of every tied group among `levels` to its
      level, and holds nothing else. */
  ghost predicate TiesFor(s: Setup, ties: map<int, int>, levels: set<int>)
  {
    && (forall k :: k in ties ==> ties[k] in levels && |GroupAt(s, ties[k])| > 1 && StartAt(s, ties[k]) == k)
    && (forall q :: q in levels && |GroupAt(s, q)| > 1 ==> StartAt(s, q) in ties && ties[StartAt(s, q)] == q)
  }

  /** The levels among `1 .. n` whose group is a single routine. */
  ghost function LoneLevels(s: Setup, n: nat): set<int>
  {
    set q | q in Upto(n) && |GroupAt(s, q)| == 1
  }

  /** One level more adds that level when its group is a single routine. */
  lemma LoneLevelsNext(s: Setup, n: nat, next: nat)
    requires next == n + 1
    ensures next !in LoneLevels(s, n)
    ensures |GroupAt(s, next)| == 1 ==> LoneLevels(s, next) == LoneLevels(s, n) + {next}
    ensures |GroupAt(s, next)| != 1 ==> LoneLevels(s, next) == LoneLevels(s, n)
  {
    UptoIs(n, next);
    assert Upto(next) == Upto(n) + {next};
  }

  lemma GroupInTable(s: Setup, p: int)
    ensures GroupAt(s, p) <= s.places.Keys && GroupAt(s, p) <= s.Crit().rank.Keys
  {
  }

  /** The order `place_ties` gives the group of level `p`, started under
      `'sum'` at that level; a lone routine is just itself. */
  ghost function GroupOrder(s: Setup, p: int): seq<Routine>
  {
    GroupInTable(s, p);
    PlaceTiesOrder(s.Crit(), GroupAt(s, p), p, true)
  }

  /** Each level's order as one block of slots, level `q` at position `q`
      (position 0 is an empty block, so that the levels keep their numbers). */
  ghost function Blocks(s: Setup): seq<seq<Routine>>
  {
    seq(s.N() + 1, q => if q == 0 then [] else GroupOrder(s, q))
  }

  /** The routines in the slot order scoring.py gives them: level after
      level, each level's group in the order `place_ties` gives it. */
  ghost function Order(s: Setup): seq<Routine>
  {
    Flatten(Blocks(s))
  }

  /** The `placements` scoring.py returns: the order written into slots 1
      on, every other slot of 1 .. N left `None`. */
  ghost function Placements(s: Setup): Slots
  {
    Put(EmptySlots(s.N()), 1, Order(s))
  }

  /** The routines that reach the majority at some level 1 .. N. */
  ghost function Slotted(s: Setup): set<Routine>
  {
    s.places.Keys - PendingAt(s, s.N() + 1)
  }

  /** `placements` holds slots 1 .. N; the block of each level of `levels`
      holds that level's order, and every other slot is still `None`. */
  ghost predicate Filled(s: Setup, placements: Slots, levels: set<int>)
  {
    BlocksFilled(placements, s.N(), Blocks(s), levels)
  }

  // ---------------------------------------------------------------------------
  // The blocks.

  /** The scan starts at slot 1. */
  lemma StartOne(s: Setup)
    ensures StartAt(s, 1) == 1
  {
    assert PendingAt(s, 1) == s.places.Keys;
  }

  /** The blocks never run past slot N. */
  lemma StartBound(s: Setup, p: int)
    ensures 1 <= StartAt(s, p) <= s.N() + 1
  {
    SubsetCard(PendingAt(s, p), s.places.Keys);
  }

  /** A level's order lists its group. */
  lemma GroupOrderLists(s: Setup, p: int)
    ensures Lists(GroupOrder(s, p), GroupAt(s, p)) && |GroupOrder(s, p)| == |GroupAt(s, p)|
  {
    PlaceTiesLists(s.Crit(), GroupAt(s, p), p, true);
    ListsLength(GroupOrder(s, p), GroupAt(s, p));
  }

  /** The block of a level ends where the next level's begins. */
  lemma BlockEnd(s: Setup, p: int, next: int)
    requires p >= 1 && next == p + 1
    ensures StartAt(s, p) + |GroupOrder(s, p)| == StartAt(s, next)
  {
    GroupOrderLists(s, p);
    StartNext(s, p);
  }

  /** Block `q` is level `q`'s order. */
  lemma BlockIs(s: Setup, q: int)
    requires 1 <= q <= s.N()
    ensures |Blocks(s)| == s.N() + 1 && Blocks(s)[q] == GroupOrder(s, q)
  {
  }

  /** The padding block is empty. */
  lemma BlockZero(s: Setup)
    ensures |Blocks(s)| == s.N() + 1 && Blocks(s)[0] == [] && Flatten(Blocks(s)[..1]) == []
  {
    var blocks := Blocks(s);
    FlattenPrefix(blocks, 0, 1);
    assert blocks[..0] == [];
  }

  /** Level `q`'s block starts at `StartAt(q)`, the slot `current_placement`
      holds when the scan reaches level `q`. */
  lemma {:induction false} BlockStartIs(s: Setup, q: int)
    requires 1 <= q <= s.N() + 1
    ensures BlockStart(Blocks(s), q) == StartAt(s, q)
    decreases q
  {
    var blocks := Blocks(s);
    if q == 1 {
      BlockZero(s);
      StartOne(s);
    } else {
      var last := q - 1;
      BlockStartIs(s, last);
      BlockNext(blocks, last, q);
      BlockIs(s, last);
      BlockEnd(s, last, q);
    }
  }

  /** Reaching the majority at level `p` moves the group of `p` out of the pending routines. */
  lemma ReachedSplit(s: Setup, p: int, next: int)
    requires p >= 1 && next == p + 1
    ensures s.places.Keys - PendingAt(s, next) == (s.places.Keys - PendingAt(s, p)) + GroupAt(s, p)
    ensures (s.places.Keys - PendingAt(s, p)) !! GroupAt(s, p)
  {
    var pending := PendingAt(s, p);
    var rest := s.StillBelow(pending, p);
    PendingAtNext(s, pending, s.ReachedAt(pending, p), rest, p);
    assert rest == PendingAt(s, next);
    SplitOff(s.places.Keys, pending, GroupAt(s, p), rest);
  }

  /** Taking `group` out of `pending` leaves `rest`: what is no longer
      pending grows by `group`. */
  lemma SplitOff(keys: set<Routine>, pending: set<Routine>, group: set<Routine>, rest: set<Routine>)
    requires pending == group + rest && group !! rest && group <= keys
    ensures keys - rest == (keys - pending) + group
    ensures (keys - pending) !! group
  {
  }

  /** The order fills at most the slots 1 .. N. */
  lemma OrderLength(s: Setup)
    ensures |Order(s)| == StartAt(s, s.N() + 1) - 1 && |Order(s)| <= s.N()
  {
    BlockStartIs(s, s.N() + 1);
    assert Blocks(s)[..s.N() + 1] == Blocks(s);
    StartBound(s, s.N() + 1);
  }

  /** Position `i` of level `q`'s order is slot `StartAt(q) + i`. */
  lemma OrderAt(s: Setup, q: int, i: int)
    requires 1 <= q <= s.N() && 0 <= i < |GroupOrder(s, q)|
    ensures 1 <= StartAt(s, q) && StartAt(s, q) - 1 + i < |Order(s)|
    ensures Order(s)[StartAt(s, q) - 1 + i] == GroupOrder(s, q)[i]
  {
    StartBound(s, q);
    BlockIs(s, q);
    BlockStartIs(s, q);
    FlattenAt(Blocks(s), q, i);
  }

  /** Slot `StartAt(q) + i` of the result holds position `i` of level `q`'s order. */
  lemma PlacementsAt(s: Setup, q: int, i: int, slot: int)
    requires 1 <= q <= s.N() && 0 <= i < |GroupOrder(s, q)| && slot == StartAt(s, q) + i
    ensures slot in Placements(s) && Placements(s)[slot] == Some(GroupOrder(s, q)[i])
  {
    OrderAt(s, q, i);
    PutAt(EmptySlots(s.N()), 1, Order(s), slot);
  }

  /** The result has exactly the slots 1 .. N, and past the last block they
      stay `None`. */
  lemma PlacementsSlots(s: Setup, slot: int)
    ensures slot in Placements(s) <==> 1 <= slot <= s.N()
    ensures slot in Placements(s) && slot >= StartAt(s, s.N() + 1) ==> Placements(s)[slot] == None
  {
    OrderLength(s);
    UptoIs(s.N(), slot);
    PutAt(EmptySlots(s.N()), 1, Order(s), slot);
  }

  /** No routine is written into two slots. */
  lemma OneSlotEach(s: Setup, a: int, b: int)
    requires a in Placements(s) && b in Placements(s)
    requires Placements(s)[a] != None && Placements(s)[a] == Placements(s)[b]
    ensures a == b
  {
    OrderLength(s);
    PutAt(EmptySlots(s.N()), 1, Order(s), a);
    PutAt(EmptySlots(s.N()), 1, Order(s), b);
    OrderLists(s);
    ListsDistinct(Order(s), Slotted(s), a - 1, b - 1);
  }

  // ---------------------------------------------------------------------------
  // The order.

  /** The levels above `q` list exactly the routines that reached the
      majority above `q`. */
  lemma {:induction false} PrefixLists(s: Setup, q: int)
    requires 1 <= q <= s.N() + 1
    ensures Lists(Flatten(Blocks(s)[..q]), s.places.Keys - PendingAt(s, q))
    decreases q
  {
    var blocks := Blocks(s);
    if q == 1 {
      BlockZero(s);
      assert PendingAt(s, 1) == s.places.Keys;
      ListsNone();
    } else {
      var last := q - 1;
      PrefixLists(s, last);
      FlattenPrefix(blocks, last, q);
      BlockIs(s, last);
      GroupOrderLists(s, last);
      ReachedSplit(s, last, q);
      ListsConcat(Flatten(blocks[..last]), s.places.Keys - PendingAt(s, last), GroupOrder(s, last), GroupAt(s, last));
    }
  }

  /** Every routine that reaches the majority at some level 1 .. N is
      listed, once. */
  lemma OrderLists(s: Setup)
    ensures Lists(Order(s), Slotted(s))
  {
    PrefixLists(s, s.N() + 1);
    assert Blocks(s)[..s.N() + 1] == Blocks(s);
  }

  /** When every rank is within 1 .. N and enough judges count, every
      routine gets a slot. */
  lemma EveryoneSlotted(s: Setup)
    requires s.Finishes()
    requires forall r :: r in s.places ==> MaxRank(s.places[r]) <= s.N()
    ensures Slotted(s) == s.places.Keys
  {
    forall r | r in s.places
      ensures r !in PendingAt(s, s.N() + 1)
    {
      TallySaturates(s.places[r], s.N(), s.Excluded());
    }
  }

  /** The majority rule: a routine whose group comes at an earlier level is
      listed first. */
  lemma EarlierLevelFirst(s: Setup, r: Routine, q: Routine, p: int, p': int)
    requires 1 <= p < p' <= s.N() && r in GroupAt(s, p) && q in GroupAt(s, p')
    ensures ListedBefore(Order(s), r, q)
  {
    GroupOrderLists(s, p);
    GroupOrderLists(s, p');
    ListsMember(GroupOrder(s, p), GroupAt(s, p), r);
    ListsMember(GroupOrder(s, p'), GroupAt(s, p'), q);
    var i :| 0 <= i < |GroupOrder(s, p)| && GroupOrder(s, p)[i] == r;
    var j :| 0 <= j < |GroupOrder(s, p')| && GroupOrder(s, p')[j] == q;
    OrderAt(s, p, i);
    OrderAt(s, p', j);
    var next := p + 1;
    BlockEnd(s, p, next);
    StartMonotone(s, next, p');
    assert Order(s)[StartAt(s, p) - 1 + i] == r && Order(s)[StartAt(s, p') - 1 + j] == q;
  }

  /** Within a level, the order `place_ties` gives stands in the full order. */
  lemma WithinLevel(s: Setup, r: Routine, q: Routine, p: int)
    requires 1 <= p <= s.N() && ListedBefore(GroupOrder(s, p), r, q)
    ensures ListedBefore(Order(s), r, q)
  {
    var i, j :| 0 <= i < j < |GroupOrder(s, p)| && GroupOrder(s, p)[i] == r && GroupOrder(s, p)[j] == q;
    OrderAt(s, p, i);
    OrderAt(s, p, j);
    assert Order(s)[StartAt(s, p) - 1 + i] == r && Order(s)[StartAt(s, p) - 1 + j] == q;
  }

  // ---------------------------------------------------------------------------
  // Filling the slots block by block.

  /** Before any block is written, every slot is open. */
  lemma FilledEmpty(s: Setup)
    ensures Filled(s, EmptySlots(s.N()), {})
  {
    BlocksFilledEmpty(s.N(), Blocks(s));
  }

  /** Writing a level's order into its block fills that block. */
  lemma FillLevel(s: Setup, a: Slots, levels: set<int>, q: int)
    requires Filled(s, a, levels) && 1 <= q <= s.N() && q !in levels
    ensures Filled(s, Put(a, StartAt(s, q), GroupOrder(s, q)), levels + {q})
  {
    BlockStartIs(s, q);
    OrderLength(s);
    FillBlock(a, s.N(), Blocks(s), levels, q, StartAt(s, q));
  }

  /** A lone routine written into its slot is the level's order written into its block. */
  lemma LoneIsGroupOrder(s: Setup, a: Slots, q: int, w: Routine)
    requires GroupAt(s, q) == {w}
    ensures GroupOrder(s, q) == [w] && a[StartAt(s, q) := Some(w)] == Put(a, StartAt(s, q), GroupOrder(s, q))
  {
    assert |GroupAt(s, q)| == 1;
    assert TheOne(GroupAt(s, q)) == w;
  }

  /** Once every non-empty level's block is written, the slots are the full result. */
  lemma FilledIsPlacements(s: Setup, a: Slots, levels: set<int>)
    requires Filled(s, a, levels)
    requires forall q :: q in Upto(s.N()) && GroupAt(s, q) != {} ==> q in levels
    ensures a == Placements(s)
  {
    OrderLength(s);
    forall q | 0 <= q < |Blocks(s)| && Blocks(s)[q] != []
      ensures q in levels
    {
      UptoIs(s.N(), q);
      GroupOrderLists(s, q);
    }
    BlocksFilledAll(a, s.N(), Blocks(s), levels);
  }

  /** A written slot of a filled table holds what the full result holds there
      (`PlacementsAt`). */
  lemma FilledAgrees(s: Setup, a: Slots, levels: set<int>, q: int, i: int, slot: int)
    requires Filled(s, a, levels) && 1 <= q <= s.N() && q in levels && 0 <= i < |GroupOrder(s, q)|
    requires slot == StartAt(s, q) + i
    ensures slot in a && a[slot] == Some(GroupOrder(s, q)[i])
  {
    BlockIs(s, q);
    BlockStartIs(s, q);
    BlockRead(a, s.N(), Blocks(s), levels, q, i, slot, GroupOrder(s, q)[i]);
  }

  /** A slot of a filled table outside the blocks of `levels` is still open. */
  lemma FilledOpen(s: Setup, a: Slots, levels: set<int>, q: int, i: int, slot: int)
    requires Filled(s, a, levels) && 1 <= q <= s.N() && q !in levels && 0 <= i < |GroupOrder(s, q)|
    requires slot == StartAt(s, q) + i
    ensures slot in a && a[slot] == None
  {
    OrderAt(s, q, i);
    OrderLength(s);
    UptoIs(s.N(), slot);
    BlockIs(s, q);
    BlockStartIs(s, q);
    BlockOpen(a, s.N(), Blocks(s), levels, q, slot);
  }
}
