/** `prelims` of scoring.py and scoring2.py: one tuple per routine holding
    the routine, its row and the sum of its ranks up to 3 (the head judge
    left out), listed by ascending sum. */
module Prelims {
  import opened ScoreTable
  import opened Tally

  /** One tuple `(r, scores[r], sum_placements(scores, r, 3, head_judge))`. */
  datatype Entry = Entry(routine: Routine, row: Row, sum: int)

  /** The level up to which a preliminary round adds up ranks. */
  const Cut: int := 3

  function EntryOf(scores: Table, headJudge: nat, r: Routine): Entry
    requires r in scores
  {
    Entry(r, scores[r], RankSum(scores[r], Cut, Some(headJudge)))
  }

  /** The tuples of the routines `routines`. */
  function EntrySet(scores: Table, headJudge: nat, routines: set<Routine>): set<Entry>
    requires routines <= scores.Keys
  {
    set r | r in routines :: EntryOf(scores, headJudge, r)
  }

  /** Ascending by sum, the order `key=operator.itemgetter(2)` asks for. */
  predicate SortedBySum(xs: seq<Entry>)
  {
    forall i, j :: 0 <= i < j < |xs| ==> xs[i].sum <= xs[j].sum
  }

  // ---------------------------------------------------------------------------
  // `sorted`: a stable sort by sum.

  /** `e` goes before the first entry whose sum is not smaller. */
  function Insert(e: Entry, xs: seq<Entry>): seq<Entry>
  {
    if xs == [] || e.sum <= xs[0].sum then [e] + xs else [xs[0]] + Insert(e, xs[1..])
  }

  /** Each entry is inserted into the sorted rest, ahead of its equals there. */
  function SortBySum(xs: seq<Entry>): seq<Entry>
  {
    if xs == [] then [] else Insert(xs[0], SortBySum(xs[1..]))
  }

  lemma {:induction false} InsertPerm(e: Entry, xs: seq<Entry>)
    ensures multiset(Insert(e, xs)) == multiset(xs) + multiset{e}
  {
    if xs == [] || e.sum <= xs[0].sum {
    } else {
      InsertPerm(e, xs[1..]);
      assert xs == [xs[0]] + xs[1..];
    }
  }

  lemma {:induction false} InsertSorted(e: Entry, xs: seq<Entry>)
    requires SortedBySum(xs)
    ensures SortedBySum(Insert(e, xs))
  {
    if xs == [] || e.sum <= xs[0].sum {
    } else {
      InsertSorted(e, xs[1..]);
      InsertPerm(e, xs[1..]);
      ghost var tail := Insert(e, xs[1..]);
      forall k | 0 <= k < |tail|
        ensures xs[0].sum <= tail[k].sum
      {
        assert tail[k] in multiset(xs[1..]) + multiset{e};
        if tail[k] != e {
          assert tail[k] in xs[1..];
        }
      }
    }
  }

  /** `sorted` returns its argument reordered, ascending by sum. */
  lemma {:induction false} SortCorrect(xs: seq<Entry>)
    ensures SortedBySum(SortBySum(xs)) && multiset(SortBySum(xs)) == multiset(xs)
  {
    if xs != [] {
      SortCorrect(xs[1..]);
      InsertSorted(xs[0], SortBySum(xs[1..]));
      InsertPerm(xs[0], SortBySum(xs[1..]));
      assert xs == [xs[0]] + xs[1..];
    }
  }

  // ---------------------------------------------------------------------------
  // The loop of `prelims`.

  lemma EntrySetAdd(scores: Table, headJudge: nat, done: set<Routine>, r: Routine)
    requires done <= scores.Keys && r in scores && r !in done
    ensures multiset(EntrySet(scores, headJudge, done + {r}))
         == multiset(EntrySet(scores, headJudge, done)) + multiset{EntryOf(scores, headJudge, r)}
  {
    ghost var e := EntryOf(scores, headJudge, r);
    assert EntrySet(scores, headJudge, done + {r}) == EntrySet(scores, headJudge, done) + {e};
    assert e !in EntrySet(scores, headJudge, done);
  }

  /** `for r in scores: placements.append((r, scores[r], sum_placements(...)))`. */
  method Entries(scores: Table, headJudge: nat) returns (entries: seq<Entry>)
    ensures multiset(entries) == multiset(EntrySet(scores, headJudge, scores.Keys))
  {
    entries := [];
    var todo := scores.Keys;
    assert scores.Keys - todo == {};
    while todo != {}
      invariant todo <= scores.Keys
      invariant multiset(entries) == multiset(EntrySet(scores, headJudge, scores.Keys - todo))
      decreases |todo|
    {
      NonEmptyHasMember(todo);
      var r :| r in todo;
      var sum := SumPlacements(scores, r, Cut, Some(headJudge));
      EntrySetAdd(scores, headJudge, scores.Keys - todo, r);
      entries := entries + [Entry(r, scores[r], sum)];
      assert scores.Keys - (todo - {r}) == (scores.Keys - todo) + {r};
      todo := todo - {r};
    }
    assert scores.Keys - todo == scores.Keys;
  }

  /** `prelims(scores, head_judge, size)` as written: reading the first row
      fails on an empty table, and otherwise the final `sorted` call looks
      up the module `operator`, which is never imported, so no call returns. */
  method PrelimsAsWritten(scores: Table, headJudge: nat, size: int) returns (result: Option<seq<Entry>>)
    ensures result == None
  {
    if scores == map[] {
      return None;
    }
    var entries := Entries(scores, headJudge);
    result := None;
  }

  /** `prelims` with `operator` imported: `None` on an empty table, and
      otherwise the tuples of every routine, ascending by sum. */
  method Prelims(scores: Table, headJudge: nat, size: int) returns (result: Option<seq<Entry>>)
    ensures result == None <==> scores == map[]
    ensures result.Some? ==> SortedBySum(result.value)
    ensures result.Some? ==> multiset(result.value) == multiset(EntrySet(scores, headJudge, scores.Keys))
  {
    if scores == map[] {
      return None;
    }
    var entries := Entries(scores, headJudge);
    SortCorrect(entries);
    result := Some(SortBySum(entries));
  }

  lemma {:induction false} EntrySetCard(scores: Table, headJudge: nat, routines: set<Routine>)
    requires routines <= scores.Keys
    ensures |EntrySet(scores, headJudge, routines)| == |routines|
    decreases |routines|
  {
    if routines != {} {
      NonEmptyHasMember(routines);
      var r :| r in routines;
      EntrySetCard(scores, headJudge, routines - {r});
      ghost var e := EntryOf(scores, headJudge, r);
      assert EntrySet(scores, headJudge, routines) == EntrySet(scores, headJudge, routines - {r}) + {e};
      assert e !in EntrySet(scores, headJudge, routines - {r});
    }
  }

  /** A list holding the tuples of every routine once has one tuple per
      routine, each with that routine's row and sum. */
  lemma OnePerRoutine(scores: Table, headJudge: nat, v: seq<Entry>)
    requires multiset(v) == multiset(EntrySet(scores, headJudge, scores.Keys))
    ensures |v| == |scores|
    ensures forall i :: 0 <= i < |v| ==> v[i].routine in scores && v[i] == EntryOf(scores, headJudge, v[i].routine)
    ensures forall r :: r in scores ==> EntryOf(scores, headJudge, r) in v
    ensures forall i, j :: 0 <= i < j < |v| ==> v[i].routine != v[j].routine
  {
    EntrySetCard(scores, headJudge, scores.Keys);
    assert |multiset(v)| == |v|;
    forall i | 0 <= i < |v|
      ensures v[i].routine in scores && v[i] == EntryOf(scores, headJudge, v[i].routine)
    {
      assert v[i] in multiset(v);
    }
    forall r | r in scores
      ensures EntryOf(scores, headJudge, r) in v
    {
      assert EntryOf(scores, headJudge, r) in multiset(v);
    }
    forall i, j | 0 <= i < j < |v|
      ensures v[i].routine != v[j].routine
    {
      if v[i].routine == v[j].routine {
        assert v[i] == v[j];
        TwiceCounted(v, i, j);
        assert false;
      }
    }
  }
}
