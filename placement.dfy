/** What it means to hand a group of routines a block of consecutive places,
    and the grouping and ordering rules the tie-breaks share. */
module Placement {
  import opened ScoreTable

  /** `m` tells `r` and `s` apart. Injectivity below is stated through this
      predicate so that it is only instantiated where a proof asks for it. */
  ghost predicate Apart(m: map<Routine, int>, r: Routine, s: Routine)
    requires r in m && s in m
  {
    m[r] != m[s]
  }

  /** `m` gives every routine of `g`, and nothing else, its own place among
      `k .. k + |g| - 1`. */
  ghost predicate IsPlacement(m: map<Routine, int>, g: set<Routine>, k: int)
  {
    && m.Keys == g
    && (forall r :: r in g ==> k <= m[r] < k + |g|)
    && (forall r, s {:trigger Apart(m, r, s)} :: r in g && s in g && r != s ==> Apart(m, r, s))
  }

  lemma SubsetCard(a: set<Routine>, b: set<Routine>)
    requires a <= b
    ensures |a| <= |b|
    ensures a < b ==> |a| < |b|
  {
    assert b == a + (b - a);
    assert a * (b - a) == {};
    if a < b {
      assert b - a != {};
    }
  }

  lemma DisjointCard(a: set<Routine>, b: set<Routine>)
    requires a !! b
    ensures |a + b| == |a| + |b|
  {
    assert a * b == {};
  }

  lemma DifferenceCard(a: set<Routine>, b: set<Routine>)
    requires b <= a
    ensures |a - b| == |a| - |b|
  {
    assert a == (a - b) + b;
    DisjointCard(a - b, b);
  }

  /** One routine alone takes place `k`. */
  lemma SinglePlacement(g: set<Routine>, k: int)
    requires |g| <= 1
    ensures IsPlacement(map r | r in g :: k, g, k)
  {
    var m := map r | r in g :: k;
    forall r, s | r in g && s in g && r != s
      ensures false
    {
      SubsetCard({r, s}, g);
    }
  }

  /** Two groups placed one after the other form a placement of their union. */
  lemma PlacementUnion(m1: map<Routine, int>, a: set<Routine>, m2: map<Routine, int>, b: set<Routine>, k: int)
    requires a !! b
    requires IsPlacement(m1, a, k)
    requires IsPlacement(m2, b, k + |a|)
    ensures IsPlacement(m1 + m2, a + b, k)
  {
    DisjointCard(a, b);
    var m := m1 + m2;
    forall r, s | r in a + b && s in a + b && r != s
      ensures Apart(m, r, s)
    {
      if r in a && s in a {
        assert Apart(m1, r, s);
      } else if r in b && s in b {
        assert Apart(m2, r, s);
      }
    }
  }

  // ---------------------------------------------------------------------------
  // The routines with the extreme value of a criterion.

  /** The routines of `g` whose value is the smallest in `g`. */
  ghost function MinGroup(g: set<Routine>, v: map<Routine, int>): set<Routine>
    requires g <= v.Keys
  {
    set r | r in g && forall s :: s in g ==> v[r] <= v[s]
  }

  /** The routines of `g` whose value is the largest in `g`. */
  ghost function MaxGroup(g: set<Routine>, v: map<Routine, int>): set<Routine>
    requires g <= v.Keys
  {
    set r | r in g && forall s :: s in g ==> v[s] <= v[r]
  }

  /** A non-empty group has at least one routine of minimal value. */
  lemma {:induction false} MinGroupNonEmpty(g: set<Routine>, v: map<Routine, int>)
    requires g <= v.Keys && g != {}
    ensures MinGroup(g, v) != {}
    decreases g
  {
    NonEmptyHasMember(g);
    var x :| x in g;
    var rest := g - {x};
    if rest == {} {
      assert g == {x};
      assert x in MinGroup(g, v);
    } else {
      MinGroupNonEmpty(rest, v);
      NonEmptyHasMember(MinGroup(rest, v));
      var y :| y in MinGroup(rest, v);
      if v[x] <= v[y] {
        assert x in MinGroup(g, v);
      } else {
        assert y in MinGroup(g, v);
      }
    }
  }

  /** A non-empty group has at least one routine of maximal value. */
  lemma {:induction false} MaxGroupNonEmpty(g: set<Routine>, v: map<Routine, int>)
    requires g <= v.Keys && g != {}
    ensures MaxGroup(g, v) != {}
    decreases g
  {
    NonEmptyHasMember(g);
    var x :| x in g;
    var rest := g - {x};
    if rest == {} {
      assert g == {x};
      assert x in MaxGroup(g, v);
    } else {
      MaxGroupNonEmpty(rest, v);
      NonEmptyHasMember(MaxGroup(rest, v));
      var y :| y in MaxGroup(rest, v);
      if v[y] <= v[x] {
        assert x in MaxGroup(g, v);
      } else {
        assert y in MaxGroup(g, v);
      }
    }
  }

  /** The routines of `g` whose value is `val`. */
  ghost function WithValue(g: set<Routine>, v: map<Routine, int>, val: int): set<Routine>
    requires g <= v.Keys
  {
    set r | r in g && v[r] == val
  }

  /** One more routine joins those with value `val` exactly when it has that value. */
  lemma WithValueAdd(g: set<Routine>, v: map<Routine, int>, x: Routine, val: int)
    requires g <= v.Keys && x in v
    ensures WithValue(g + {x}, v, val) == WithValue(g, v, val) + (if v[x] == val then {x} else {})
  {
  }

  lemma WithValueNone(g: set<Routine>, v: map<Routine, int>, val: int)
    requires g <= v.Keys && forall r :: r in g ==> v[r] != val
    ensures WithValue(g, v, val) == {}
  {
    forall r | r in g
      ensures r !in WithValue(g, v, val)
    {
      assert v[r] != val;
    }
  }

  /** The minimal group is the set of routines with the minimal value. */
  lemma MinGroupIs(g: set<Routine>, v: map<Routine, int>, w: Routine, val: int)
    requires g <= v.Keys && w in g && v[w] == val
    requires forall r :: r in g ==> val <= v[r]
    ensures MinGroup(g, v) == WithValue(g, v, val)
  {
    forall r | r in g
      ensures r in MinGroup(g, v) <==> r in WithValue(g, v, val)
    {
      if r in MinGroup(g, v) {
        assert v[r] <= v[w];
      }
    }
  }

  /** The maximal group is the set of routines with the maximal value. */
  lemma MaxGroupIs(g: set<Routine>, v: map<Routine, int>, w: Routine, val: int)
    requires g <= v.Keys && w in g && v[w] == val
    requires forall r :: r in g ==> v[r] <= val
    ensures MaxGroup(g, v) == WithValue(g, v, val)
  {
    forall r | r in g
      ensures r in MaxGroup(g, v) <==> r in WithValue(g, v, val)
    {
      if r in MaxGroup(g, v) {
        assert v[w] <= v[r];
      }
    }
  }

  // ---------------------------------------------------------------------------
  // The head judge's order: the ascending order of the head judge's ranks.

  /** The routines of `g` the head judge ranked better than `r`. */
  ghost function RankedBetter(g: set<Routine>, rank: map<Routine, int>, r: Routine): set<Routine>
    requires g <= rank.Keys && r in rank
  {
    set s | s in g && rank[s] < rank[r]
  }

  /** Each routine of `g` takes place `k` plus the number of routines of `g`
      the head judge ranked better. */
  ghost function HeadOrder(g: set<Routine>, rank: map<Routine, int>, k: int): map<Routine, int>
    requires g <= rank.Keys
  {
    map r | r in g :: k + |RankedBetter(g, rank, r)|
  }

  /** The head judge gave pairwise distinct ranks to the routines of `g`. */
  ghost predicate DistinctRanks(g: set<Routine>, rank: map<Routine, int>)
    requires g <= rank.Keys
  {
    forall r, s {:trigger Apart(rank, r, s)} :: r in g && s in g && r != s ==> Apart(rank, r, s)
  }

  lemma RankedBetterGrows(g: set<Routine>, rank: map<Routine, int>, r: Routine, s: Routine)
    requires g <= rank.Keys && r in g && s in g
    requires rank[r] < rank[s]
    ensures |RankedBetter(g, rank, r)| < |RankedBetter(g, rank, s)|
  {
    var br, bs := RankedBetter(g, rank, r), RankedBetter(g, rank, s);
    assert r in bs && r !in br;
    SubsetCard(br, bs);
  }

  /** Under distinct head-judge ranks, the head judge's order is a placement. */
  lemma HeadOrderIsPlacement(g: set<Routine>, rank: map<Routine, int>, k: int)
    requires g <= rank.Keys
    requires DistinctRanks(g, rank)
    ensures IsPlacement(HeadOrder(g, rank, k), g, k)
  {
    var m := HeadOrder(g, rank, k);
    forall r | r in g
      ensures k <= m[r] < k + |g|
    {
      var b := RankedBetter(g, rank, r);
      assert r !in b;
      SubsetCard(b, g);
    }
    forall r, s | r in g && s in g && r != s
      ensures Apart(m, r, s)
    {
      assert Apart(rank, r, s);
      if rank[r] < rank[s] {
        RankedBetterGrows(g, rank, r, s);
      } else {
        RankedBetterGrows(g, rank, s, r);
      }
    }
  }

  /** The head-judge ordering law: a better head-judge rank gets a better place. */
  lemma HeadOrderRespectsRank(g: set<Routine>, rank: map<Routine, int>, k: int, r: Routine, s: Routine)
    requires g <= rank.Keys && r in g && s in g
    requires rank[r] < rank[s]
    ensures HeadOrder(g, rank, k)[r] < HeadOrder(g, rank, k)[s]
  {
    RankedBetterGrows(g, rank, r, s);
  }

  // ---------------------------------------------------------------------------
  // Reading a dict from head-judge rank to routine in ascending rank order
  // (the head-judge fallbacks of both complete variants).

  /** `byRank` maps the head-judge rank of every routine of `done` to a
      routine of `done` with that rank. */
  ghost predicate Indexed(rank: map<Routine, int>, done: set<Routine>, byRank: map<int, Routine>)
    requires done <= rank.Keys
  {
    && (forall r :: r in done ==> rank[r] in byRank)
    && (forall q :: q in byRank ==> byRank[q] in done && rank[byRank[q]] == q)
  }

  lemma IndexStep(rank: map<Routine, int>, done: set<Routine>, byRank: map<int, Routine>, x: Routine)
    requires done <= rank.Keys && x in rank && Indexed(rank, done, byRank)
    ensures Indexed(rank, done + {x}, byRank[rank[x] := x])
  {
  }

  /** The routines of `g` whose rank has been read: not among `rest`. */
  ghost function PlacedBy(g: set<Routine>, rank: map<Routine, int>, rest: set<int>): set<Routine>
    requires g <= rank.Keys
  {
    set r | r in g && rank[r] !in rest
  }

  /** Before any rank is read, nobody is placed. */
  lemma NonePlaced(g: set<Routine>, rank: map<Routine, int>, byRank: map<int, Routine>)
    requires g <= rank.Keys && Indexed(rank, g, byRank)
    ensures PlacedBy(g, rank, byRank.Keys) == {}
  {
    forall r | r in g
      ensures rank[r] in byRank.Keys
    {
    }
  }

  /** The ranks still to read, `rest`, all come after those already read. */
  ghost predicate Ascending(byRank: map<int, Routine>, rest: set<int>)
  {
    && rest <= byRank.Keys
    && (forall q, q' :: q in byRank && q !in rest && q' in rest ==> q < q')
  }

  /** A non-empty set of ranks has a smallest one. */
  lemma {:induction false} HasMinimum(rest: set<int>)
    requires rest != {}
    ensures exists m :: m in rest && forall q :: q in rest ==> m <= q
    decreases |rest|
  {
    NonEmptyHasMember(rest);
    var x :| x in rest;
    if rest != {x} {
      HasMinimum(rest - {x});
      var m :| m in rest - {x} && forall q :: q in rest - {x} ==> m <= q;
      var least := if x < m then x else m;
      forall q | q in rest
        ensures least <= q
      {
        if q != x {
          assert q in rest - {x};
        }
      }
    } else {
      assert forall q :: q in rest ==> x <= q;
    }
  }

  /** Reading the smallest rank left: under distinct ranks it belongs to the
      one routine that has it, whose better-ranked routines are exactly those
      already read. */
  lemma ChiefStep(g: set<Routine>, rank: map<Routine, int>, byRank: map<int, Routine>, rest: set<int>, m: int)
    requires g <= rank.Keys && DistinctRanks(g, rank) && Indexed(rank, g, byRank) && Ascending(byRank, rest)
    requires m in rest && forall q :: q in rest ==> m <= q
    ensures byRank[m] in g && byRank[m] !in PlacedBy(g, rank, rest)
    ensures PlacedBy(g, rank, rest - {m}) == PlacedBy(g, rank, rest) + {byRank[m]}
    ensures RankedBetter(g, rank, byRank[m]) == PlacedBy(g, rank, rest)
    ensures Ascending(byRank, rest - {m})
  {
    AscendingStep(byRank, rest, m);
    var w := byRank[m];
    forall r | r in g && r != w
      ensures rank[r] != m
    {
      assert Apart(rank, r, w);
    }
  }

  /** Reading the smallest rank left keeps the ranks left ascending. */
  lemma AscendingStep(byRank: map<int, Routine>, rest: set<int>, m: int)
    requires Ascending(byRank, rest) && m in rest && forall q :: q in rest ==> m <= q
    ensures Ascending(byRank, rest - {m})
  {
  }

  /** The places handed to the routines `placed` so far. */
  ghost function HeadPrefix(g: set<Routine>, rank: map<Routine, int>, placed: set<Routine>, k: int): map<Routine, int>
    requires g <= rank.Keys && placed <= g
  {
    map r | r in placed :: k + |RankedBetter(g, rank, r)|
  }

  lemma HeadPrefixStep(f0: map<Routine, int>, g: set<Routine>, rank: map<Routine, int>, placed: set<Routine>, x: Routine, k: int)
    requires g <= rank.Keys && placed <= g && x in g
    ensures (f0 + HeadPrefix(g, rank, placed, k))[x := k + |RankedBetter(g, rank, x)|]
         == f0 + HeadPrefix(g, rank, placed + {x}, k)
  {
  }
}
