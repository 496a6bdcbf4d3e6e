/** The score table every ranking variant reads: for each routine, the rank
    each judge gave it. A judge is identified by its position in a row. */
module ScoreTable {

  type Routine = int

  /** One routine's ranks, judge by judge: `row[j]` is judge `j`'s rank. */
  type Row = seq<int>

  /** Routine -> its row of ranks (the source's `{routine: {judge: rank}}`). */
  type Table = map<Routine, Row>

  datatype Option<T> = None | Some(value: T)

  /** A value at two positions of `xs` occurs at least twice in it. */
  lemma TwiceCounted<T>(xs: seq<T>, i: int, j: int)
    requires 0 <= i < j < |xs| && xs[i] == xs[j]
    ensures multiset(xs)[xs[i]] >= 2
  {
    assert xs == xs[..i] + [xs[i]] + xs[i + 1..j] + [xs[j]] + xs[j + 1..];
  }

  /** A non-empty set has a member (the witness every `:|` choice below needs). */
  lemma NonEmptyHasMember(s: set<int>)
    requires s != {}
    ensures exists x :: x in s
  {
    if forall x :: x !in s {
      assert false;
    }
  }
}
