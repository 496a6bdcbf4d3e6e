/** The `placements` dict of scoring.py and scoring2.py: slot -> the routine
    placed there, `None` while the slot is open. The tie-breaks of those
    variants are specified by the order in which they fill consecutive slots. */
module SlotTable {
  import opened ScoreTable

  type Slots = map<int, Option<Routine>>

  /** The slots 1 .. n. */
  function Upto(n: nat): set<int>
  {
    if n == 0 then {} else Upto(n - 1) + {n}
  }

  lemma {:induction false} UptoIs(n: nat, slot: int)
    ensures slot in Upto(n) <==> 1 <= slot <= n
  {
    if n > 0 {
      UptoIs(n - 1, slot);
    }
  }

  /** Slots 1 .. n, all open (`placements[place] = None` for every place). */
  function EmptySlots(n: nat): Slots
  {
    map slot | slot in Upto(n) :: None
  }

  /** `xs` written into consecutive slots from `p` on. */
  function Put(a: Slots, p: int, xs: seq<Routine>): Slots
    decreases |xs|
  {
    if xs == [] then a else Put(a[p := Some(xs[0])], p + 1, xs[1..])
  }

  /** `xs` lists every routine of `g` exactly once, and nothing else. */
  ghost predicate Lists(xs: seq<Routine>, g: set<Routine>)
  {
    multiset(xs) == multiset(g)
  }

  /** `r` comes strictly before `q` in `xs`. */
  ghost predicate ListedBefore(xs: seq<Routine>, r: Routine, q: Routine)
  {
    exists i, j :: 0 <= i < j < |xs| && xs[i] == r && xs[j] == q
  }

  // ---------------------------------------------------------------------------
  // Writing slots.

  /** What `Put` leaves in one slot. */
  lemma {:induction false} PutAt(a: Slots, p: int, xs: seq<Routine>, slot: int)
    ensures slot in Put(a, p, xs) <==> slot in a || p <= slot < p + |xs|
    ensures p <= slot < p + |xs| ==> Put(a, p, xs)[slot] == Some(xs[slot - p])
    ensures slot in a && !(p <= slot < p + |xs|) ==> Put(a, p, xs)[slot] == a[slot]
    decreases |xs|
  {
    if xs != [] {
      PutAt(a[p := Some(xs[0])], p + 1, xs[1..], slot);
      if p + 1 <= slot < p + |xs| {
        assert xs[1..][slot - (p + 1)] == xs[slot - p];
      }
    }
  }

  /** Writing one routine, then the rest after it. */
  lemma PutCons(a: Slots, p: int, next: int, x: Routine, ys: seq<Routine>)
    requires next == p + 1
    ensures Put(a[p := Some(x)], next, ys) == Put(a, p, [x] + ys)
  {
    assert ([x] + ys)[1..] == ys;
  }

  /** Writing one block, then the next block after it. */
  lemma {:induction false} PutAppend(a: Slots, p: int, next: int, xs: seq<Routine>, ys: seq<Routine>)
    requires next == p + |xs|
    ensures Put(Put(a, p, xs), next, ys) == Put(a, p, xs + ys)
    decreases |xs|
  {
    if xs == [] {
      assert xs + ys == ys;
    } else {
      PutAppend(a[p := Some(xs[0])], p + 1, next, xs[1..], ys);
      assert (xs + ys)[0] == xs[0] && (xs + ys)[1..] == xs[1..] + ys;
    }
  }

  // ---------------------------------------------------------------------------
  // Listing a group.

  lemma ListsLength(xs: seq<Routine>, g: set<Routine>)
    requires Lists(xs, g)
    ensures |xs| == |g|
  {
    assert |multiset(xs)| == |xs|;
    assert |multiset(g)| == |g|;
  }

  lemma ListsMember(xs: seq<Routine>, g: set<Routine>, r: Routine)
    requires Lists(xs, g)
    ensures r in xs <==> r in g
  {
    assert r in xs <==> r in multiset(xs);
  }

  /** Each listed routine occurs once: two positions holding the same routine coincide. */
  lemma ListsDistinct(xs: seq<Routine>, g: set<Routine>, i: int, j: int)
    requires Lists(xs, g) && 0 <= i < |xs| && 0 <= j < |xs| && xs[i] == xs[j]
    ensures i == j
  {
    if i < j {
      TwiceCounted(xs, i, j);
    } else if j < i {
      TwiceCounted(xs, j, i);
    }
  }

  lemma ListsNone()
    ensures Lists([], {})
  {
  }

  lemma ListsOne(x: Routine, g: set<Routine>)
    requires g == {x}
    ensures Lists([x], g)
  {
  }

  /** Two disjoint groups listed one after the other list their union. */
  lemma ListsConcat(xs: seq<Routine>, a: set<Routine>, ys: seq<Routine>, b: set<Routine>)
    requires Lists(xs, a) && Lists(ys, b) && a !! b
    ensures Lists(xs + ys, a + b)
  {
    assert multiset(xs + ys) == multiset(xs) + multiset(ys);
    assert multiset(a + b) == multiset(a) + multiset(b);
  }

  /** A sub-group listed first and the rest of the group after it. */
  lemma ListsSplit(xs: seq<Routine>, tie: set<Routine>, ys: seq<Routine>, g: set<Routine>)
    requires tie <= g && Lists(xs, tie) && Lists(ys, g - tie)
    ensures Lists(xs + ys, g)
  {
    ListsConcat(xs, tie, ys, g - tie);
    assert tie + (g - tie) == g;
  }

  // ---------------------------------------------------------------------------
  // Order in a listing.

  /** Whoever is in the first block comes before whoever is in the second. */
  lemma BeforeAcross(xs: seq<Routine>, ys: seq<Routine>, r: Routine, q: Routine)
    requires r in xs && q in ys
    ensures ListedBefore(xs + ys, r, q)
  {
    var i :| 0 <= i < |xs| && xs[i] == r;
    var j :| 0 <= j < |ys| && ys[j] == q;
    assert (xs + ys)[i] == r && (xs + ys)[|xs| + j] == q;
  }

  /** The order inside the first block stands. */
  lemma BeforeLeft(xs: seq<Routine>, ys: seq<Routine>, r: Routine, q: Routine)
    requires ListedBefore(xs, r, q)
    ensures ListedBefore(xs + ys, r, q)
  {
    var i, j :| 0 <= i < j < |xs| && xs[i] == r && xs[j] == q;
    assert (xs + ys)[i] == r && (xs + ys)[j] == q;
  }

  /** The order inside the second block stands. */
  lemma BeforeRight(xs: seq<Routine>, ys: seq<Routine>, r: Routine, q: Routine)
    requires ListedBefore(ys, r, q)
    ensures ListedBefore(xs + ys, r, q)
  {
    var i, j :| 0 <= i < j < |ys| && ys[i] == r && ys[j] == q;
    assert (xs + ys)[|xs| + i] == r && (xs + ys)[|xs| + j] == q;
  }

  // ---------------------------------------------------------------------------
  // Blocks of slots: group `q` of `blocks` owns the slots right after those
  // of groups 0 .. q - 1, the first block starting at slot 1.

  /** The blocks laid end to end. */
  function Flatten(blocks: seq<seq<Routine>>): seq<Routine>
  {
    if blocks == [] then [] else Flatten(blocks[..|blocks| - 1]) + blocks[|blocks| - 1]
  }

  /** The first slot of block `q`. */
  function BlockStart(blocks: seq<seq<Routine>>, q: int): int
    requires 0 <= q <= |blocks|
  {
    1 + |Flatten(blocks[..q])|
  }

  /** `slot` lies in the block of one of `done`. */
  ghost predicate InBlocks(blocks: seq<seq<Routine>>, done: set<int>, slot: int)
  {
    exists q :: q in done && 0 <= q < |blocks| && BlockStart(blocks, q) <= slot < BlockStart(blocks, q) + |blocks[q]|
  }

  /** `a` holds the slots 1 .. n; the blocks of `done` are written into
      their slots, and every other slot is still `None`. */
  ghost predicate BlocksFilled(a: Slots, n: nat, blocks: seq<seq<Routine>>, done: set<int>)
  {
    && a.Keys == Upto(n)
    && (forall q :: q in done ==> 0 <= q < |blocks|)
    && (forall slot :: slot in a && !InBlocks(blocks, done, slot) ==> a[slot] == None)
    && (forall q :: q in done ==> Written(a, blocks, q))
  }

  /** Block `q` is written into its slots of `a`. */
  ghost predicate Written(a: Slots, blocks: seq<seq<Routine>>, q: int)
  {
    0 <= q < |blocks| &&
    forall i :: 0 <= i < |blocks[q]| ==> WrittenAt(a, blocks, q, i)
  }

  /** Slot `i` of block `q` holds the block's `i`-th routine. */
  ghost predicate WrittenAt(a: Slots, blocks: seq<seq<Routine>>, q: int, i: int)
  {
    0 <= q < |blocks| && 0 <= i < |blocks[q]| &&
    BlockStart(blocks, q) + i in a && a[BlockStart(blocks, q) + i] == Some(blocks[q][i])
  }

  /** Block `q` ends where block `q + 1` begins. */
  lemma BlockNext(blocks: seq<seq<Routine>>, q: int, next: int)
    requires 0 <= q < |blocks| && next == q + 1
    ensures BlockStart(blocks, next) == BlockStart(blocks, q) + |blocks[q]|
  {
    assert blocks[..next][..q] == blocks[..q];
  }

  /** Later blocks start later. */
  lemma {:induction false} BlockMonotone(blocks: seq<seq<Routine>>, q: int, q': int)
    requires 0 <= q <= q' <= |blocks|
    ensures BlockStart(blocks, q) <= BlockStart(blocks, q')
    decreases q' - q
  {
    if q < q' {
      var next := q + 1;
      BlockNext(blocks, q, next);
      BlockMonotone(blocks, next, q');
    }
  }

  /** The blocks end at slot `|Flatten(blocks)|`. */
  lemma BlockEnds(blocks: seq<seq<Routine>>, q: int)
    requires 0 <= q < |blocks|
    ensures BlockStart(blocks, q) + |blocks[q]| <= |Flatten(blocks)| + 1
  {
    var next := q + 1;
    BlockNext(blocks, q, next);
    BlockMonotone(blocks, next, |blocks|);
    assert blocks[..|blocks|] == blocks;
  }

  /** Two blocks share no slot. */
  lemma BlocksApart(blocks: seq<seq<Routine>>, q: int, q': int, slot: int)
    requires 0 <= q < |blocks| && 0 <= q' < |blocks| && q != q'
    requires BlockStart(blocks, q) <= slot < BlockStart(blocks, q) + |blocks[q]|
    ensures !(BlockStart(blocks, q') <= slot < BlockStart(blocks, q') + |blocks[q']|)
  {
    if q < q' {
      var next := q + 1;
      BlockNext(blocks, q, next);
      BlockMonotone(blocks, next, q');
    } else {
      var next := q' + 1;
      BlockNext(blocks, q', next);
      BlockMonotone(blocks, next, q);
    }
  }

  /** Position `i` of block `q` is position `BlockStart(q) - 1 + i` of the blocks laid end to end. */
  lemma {:induction false} FlattenAt(blocks: seq<seq<Routine>>, q: int, i: int)
    requires 0 <= q < |blocks| && 0 <= i < |blocks[q]|
    ensures BlockStart(blocks, q) - 1 + i < |Flatten(blocks)|
    ensures Flatten(blocks)[BlockStart(blocks, q) - 1 + i] == blocks[q][i]
    decreases |blocks|
  {
    var init := blocks[..|blocks| - 1];
    assert Flatten(blocks) == Flatten(init) + blocks[|blocks| - 1];
    if q < |blocks| - 1 {
      FlattenAt(init, q, i);
      assert init[..q] == blocks[..q];
    } else {
      assert blocks[..q] == init;
    }
  }

  /** Block lists laid end to end, one after the other. */
  /** The blocks before `next` are the blocks before `q` and block `q`. */
  lemma FlattenPrefix(blocks: seq<seq<Routine>>, q: int, next: int)
    requires 0 <= q < |blocks| && next == q + 1
    ensures Flatten(blocks[..next]) == Flatten(blocks[..q]) + blocks[q]
  {
    assert blocks[..next][..q] == blocks[..q];
  }

  lemma {:induction false} FlattenAppend(xs: seq<seq<Routine>>, ys: seq<seq<Routine>>)
    ensures Flatten(xs + ys) == Flatten(xs) + Flatten(ys)
    decreases |ys|
  {
    if ys == [] {
      assert xs + ys == xs;
    } else {
      var init := ys[..|ys| - 1];
      FlattenAppend(xs, init);
      assert (xs + ys)[..|xs + ys| - 1] == xs + init;
    }
  }

  /** Before any block is written every slot is open. */
  lemma BlocksFilledEmpty(n: nat, blocks: seq<seq<Routine>>)
    ensures BlocksFilled(EmptySlots(n), n, blocks, {})
  {
  }

  /** Reading a written slot. */
  lemma BlocksFilledAt(a: Slots, n: nat, blocks: seq<seq<Routine>>, done: set<int>, q: int, i: int)
    requires BlocksFilled(a, n, blocks, done) && q in done && 0 <= i < |blocks[q]|
    ensures BlockStart(blocks, q) + i in a && a[BlockStart(blocks, q) + i] == Some(blocks[q][i])
  {
    assert Written(a, blocks, q);
    assert WrittenAt(a, blocks, q, i);
  }

  /** Reading a written slot, its number and content already known. */
  lemma BlockRead(a: Slots, n: nat, blocks: seq<seq<Routine>>, done: set<int>, q: int, i: int, slot: int, x: Routine)
    requires BlocksFilled(a, n, blocks, done) && q in done && 0 <= i < |blocks[q]|
    requires slot == BlockStart(blocks, q) + i && x == blocks[q][i]
    ensures slot in a && a[slot] == Some(x)
  {
    BlocksFilledAt(a, n, blocks, done, q, i);
  }

  /** A slot in the block of a level not yet written is open. */
  lemma BlockOpen(a: Slots, n: nat, blocks: seq<seq<Routine>>, done: set<int>, q: int, slot: int)
    requires BlocksFilled(a, n, blocks, done) && 0 <= q < |blocks| && q !in done && slot in a
    requires BlockStart(blocks, q) <= slot < BlockStart(blocks, q) + |blocks[q]|
    ensures a[slot] == None
  {
    if InBlocks(blocks, done, slot) {
      var q' :| q' in done && 0 <= q' < |blocks| && BlockStart(blocks, q') <= slot < BlockStart(blocks, q') + |blocks[q']|;
      BlocksApart(blocks, q', q, slot);
    }
  }

  /** Writing block `q` into its slots. */
  lemma FillBlock(a: Slots, n: nat, blocks: seq<seq<Routine>>, done: set<int>, q: int, k: int)
    requires BlocksFilled(a, n, blocks, done) && 0 <= q < |blocks| && q !in done
    requires |Flatten(blocks)| <= n && k == BlockStart(blocks, q)
    ensures BlocksFilled(Put(a, k, blocks[q]), n, blocks, done + {q})
  {
    FillKeys(a, n, blocks, q, k);
    FillOpen(a, n, blocks, done, q, k);
    FillWritten(a, n, blocks, done, q, k);
  }

  lemma FillKeys(a: Slots, n: nat, blocks: seq<seq<Routine>>, q: int, k: int)
    requires a.Keys == Upto(n) && 0 <= q < |blocks| && |Flatten(blocks)| <= n && k == BlockStart(blocks, q)
    ensures Put(a, k, blocks[q]).Keys == Upto(n)
  {
    BlockEnds(blocks, q);
    forall slot
      ensures slot in Put(a, k, blocks[q]) <==> slot in Upto(n)
    {
      PutAt(a, k, blocks[q], slot);
      UptoIs(n, slot);
    }
  }

  lemma FillOpen(a: Slots, n: nat, blocks: seq<seq<Routine>>, done: set<int>, q: int, k: int)
    requires BlocksFilled(a, n, blocks, done) && 0 <= q < |blocks| && k == BlockStart(blocks, q)
    ensures forall slot :: slot in Put(a, k, blocks[q]) && !InBlocks(blocks, done + {q}, slot) ==> Put(a, k, blocks[q])[slot] == None
  {
    forall slot | slot in Put(a, k, blocks[q]) && !InBlocks(blocks, done + {q}, slot)
      ensures Put(a, k, blocks[q])[slot] == None
    {
      PutAt(a, k, blocks[q], slot);
      assert !InBlocks(blocks, done, slot);
    }
  }

  lemma FillWritten(a: Slots, n: nat, blocks: seq<seq<Routine>>, done: set<int>, q: int, k: int)
    requires BlocksFilled(a, n, blocks, done) && 0 <= q < |blocks| && k == BlockStart(blocks, q)
    ensures forall q' :: q' in done + {q} ==> Written(Put(a, k, blocks[q]), blocks, q')
  {
    forall q' | q' in done + {q}
      ensures Written(Put(a, k, blocks[q]), blocks, q')
    {
      if q' == q {
        FillWrittenOwn(a, blocks, q, k);
      } else {
        FillWrittenKept(a, n, blocks, done, q, k, q');
      }
    }
  }

  /** Writing block `q` at its start writes block `q`. */
  lemma FillWrittenOwn(a: Slots, blocks: seq<seq<Routine>>, q: int, k: int)
    requires 0 <= q < |blocks| && k == BlockStart(blocks, q)
    ensures Written(Put(a, k, blocks[q]), blocks, q)
  {
    forall i | 0 <= i < |blocks[q]|
      ensures WrittenAt(Put(a, k, blocks[q]), blocks, q, i)
    {
      PutAt(a, k, blocks[q], BlockStart(blocks, q) + i);
    }
  }

  /** Writing block `q` keeps every other written block written. */
  lemma FillWrittenKept(a: Slots, n: nat, blocks: seq<seq<Routine>>, done: set<int>, q: int, k: int, q': int)
    requires BlocksFilled(a, n, blocks, done) && 0 <= q < |blocks| && k == BlockStart(blocks, q)
    requires q' in done && q' != q
    ensures Written(Put(a, k, blocks[q]), blocks, q')
  {
    forall i | 0 <= i < |blocks[q']|
      ensures WrittenAt(Put(a, k, blocks[q]), blocks, q', i)
    {
      FillBlockKeeps(a, n, blocks, done, q, k, q', i, BlockStart(blocks, q') + i);
    }
  }

  /** Writing block `q` leaves the written slots of another block alone. */
  lemma FillBlockKeeps(a: Slots, n: nat, blocks: seq<seq<Routine>>, done: set<int>, q: int, k: int, q': int, i: int, slot: int)
    requires BlocksFilled(a, n, blocks, done) && 0 <= q < |blocks| && k == BlockStart(blocks, q)
    requires q' in done && q' != q && 0 <= i < |blocks[q']| && slot == BlockStart(blocks, q') + i
    ensures slot in Put(a, k, blocks[q]) && Put(a, k, blocks[q])[slot] == Some(blocks[q'][i])
  {
    BlocksFilledAt(a, n, blocks, done, q', i);
    BlocksApart(blocks, q', q, slot);
    PutAt(a, k, blocks[q], slot);
  }

  /** Once every non-empty block is written, the slots hold the blocks laid
      end to end from slot 1, the rest `None`. */
  lemma BlocksFilledAll(a: Slots, n: nat, blocks: seq<seq<Routine>>, done: set<int>)
    requires BlocksFilled(a, n, blocks, done) && |Flatten(blocks)| <= n
    requires forall q :: 0 <= q < |blocks| && blocks[q] != [] ==> q in done
    ensures a == Put(EmptySlots(n), 1, Flatten(blocks))
  {
    var f := Put(EmptySlots(n), 1, Flatten(blocks));
    forall slot | slot in a
      ensures slot in f && a[slot] == f[slot]
    {
      FilledSlot(a, n, blocks, done, slot);
    }
    forall slot | slot in f
      ensures slot in a
    {
      PutAt(EmptySlots(n), 1, Flatten(blocks), slot);
      UptoIs(n, slot);
    }
  }

  lemma FilledSlot(a: Slots, n: nat, blocks: seq<seq<Routine>>, done: set<int>, slot: int)
    requires BlocksFilled(a, n, blocks, done) && |Flatten(blocks)| <= n && slot in a
    requires forall q :: 0 <= q < |blocks| && blocks[q] != [] ==> q in done
    ensures slot in Put(EmptySlots(n), 1, Flatten(blocks))
    ensures a[slot] == Put(EmptySlots(n), 1, Flatten(blocks))[slot]
  {
    UptoIs(n, slot);
    PutAt(EmptySlots(n), 1, Flatten(blocks), slot);
    if slot <= |Flatten(blocks)| {
      FilledSlotInside(a, n, blocks, done, slot);
    } else {
      FilledSlotBeyond(a, n, blocks, done, slot);
    }
  }

  /** A slot within the laid-out blocks holds its routine. */
  lemma FilledSlotInside(a: Slots, n: nat, blocks: seq<seq<Routine>>, done: set<int>, slot: int)
    requires BlocksFilled(a, n, blocks, done) && 1 <= slot <= |Flatten(blocks)|
    requires forall q :: 0 <= q < |blocks| && blocks[q] != [] ==> q in done
    ensures slot in a && a[slot] == Some(Flatten(blocks)[slot - 1])
  {
    var q := BlockHolding(blocks, slot);
    var i := slot - BlockStart(blocks, q);
    var pos := slot - 1;
    FlattenAtSlot(blocks, q, i, pos);
    BlocksFilledSlot(a, n, blocks, done, q, i, slot);
  }

  /** The block holding a slot within the laid-out blocks. */
  lemma BlockHolding(blocks: seq<seq<Routine>>, slot: int) returns (q: int)
    requires 1 <= slot <= |Flatten(blocks)|
    ensures 0 <= q < |blocks| && BlockStart(blocks, q) <= slot < BlockStart(blocks, q) + |blocks[q]|
  {
    assert blocks[..|blocks|] == blocks;
    q := BlockOf(blocks, |blocks|, slot);
  }

  /** `FlattenAt` with the position given by name. */
  lemma FlattenAtSlot(blocks: seq<seq<Routine>>, q: int, i: int, pos: int)
    requires 0 <= q < |blocks| && 0 <= i < |blocks[q]| && pos == BlockStart(blocks, q) - 1 + i
    ensures 0 <= pos < |Flatten(blocks)| && Flatten(blocks)[pos] == blocks[q][i]
  {
    FlattenAt(blocks, q, i);
  }

  /** `BlocksFilledAt` with the slot given by name. */
  lemma BlocksFilledSlot(a: Slots, n: nat, blocks: seq<seq<Routine>>, done: set<int>, q: int, i: int, slot: int)
    requires BlocksFilled(a, n, blocks, done) && q in done && 0 <= i < |blocks[q]|
    requires slot == BlockStart(blocks, q) + i
    ensures slot in a && a[slot] == Some(blocks[q][i])
  {
    BlocksFilledAt(a, n, blocks, done, q, i);
  }

  /** A slot past the laid-out blocks is empty. */
  lemma FilledSlotBeyond(a: Slots, n: nat, blocks: seq<seq<Routine>>, done: set<int>, slot: int)
    requires BlocksFilled(a, n, blocks, done) && |Flatten(blocks)| < slot && slot in a
    ensures a[slot] == None
  {
    if InBlocks(blocks, done, slot) {
      var q :| q in done && 0 <= q < |blocks| && BlockStart(blocks, q) <= slot < BlockStart(blocks, q) + |blocks[q]|;
      BlockEnds(blocks, q);
    }
  }

  /** The block among the first `m` holding a slot before their end. */
  lemma {:induction false} BlockOf(blocks: seq<seq<Routine>>, m: int, slot: int) returns (q: int)
    requires 0 <= m <= |blocks| && 1 <= slot < BlockStart(blocks, m)
    ensures 0 <= q < m && BlockStart(blocks, q) <= slot < BlockStart(blocks, q) + |blocks[q]|
    decreases m
  {
    if m == 0 {
      assert false;
    } else {
      var last := m - 1;
      BlockNext(blocks, last, m);
      if slot >= BlockStart(blocks, last) {
        q := last;
      } else {
        q := BlockOf(blocks, last, slot);
      }
    }
  }
}
