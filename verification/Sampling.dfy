/** Choosing the questions of a rehearsal (ideation/faqdef/rehearse.ts): a weighted draw without
    replacement. The random rolls are given; roll `k` is a fraction of the total weight. */
module Sampling {
  import opened Sequences
  import opened QaSheet

  /** Answers that state nothing are drawn three times as often. */
  function Weight(e: Entry): nat { if e.grounding == NOT_STATED then 3 else 1 }

  function Total(pool: seq<Entry>): nat {
    if pool == [] then 0 else Total(pool[..|pool| - 1]) + Weight(pool[|pool| - 1])
  }

  function HasAxis(axes: seq<string>): Entry -> bool {
    (e: Entry) => exists t :: t in e.tags && t in axes
  }

  function Pool(entries: seq<Entry>, axes: seq<string>): seq<Entry> {
    if axes == [] then entries else Filter(entries, HasAxis(axes))
  }

  function RemoveAt(pool: seq<Entry>, i: nat): seq<Entry>
    requires i < |pool|
  {
    pool[..i] + pool[i + 1..]
  }

  lemma {:induction false} TotalAppend(a: seq<Entry>, b: seq<Entry>)
    ensures Total(a + b) == Total(a) + Total(b)
  {
    if b == [] {
      assert a + b == a;
    } else {
      assert (a + b)[..|a + b| - 1] == a + b[..|b| - 1];
      TotalAppend(a, b[..|b| - 1]);
    }
  }

  lemma TotalPrefix(pool: seq<Entry>, i: nat, j: nat)
    requires i <= j <= |pool|
    ensures Total(pool[..i]) <= Total(pool[..j])
  {
    assert pool[..j] == pool[..i] + pool[i..j];
    TotalAppend(pool[..i], pool[i..j]);
  }

  /** Where a roll lands when the weights are taken off it one by one. */
  function Walk(pool: seq<Entry>, rest: real, i: nat): (idx: nat)
    requires i < |pool|
    ensures idx < |pool|
    decreases |pool| - i
  {
    if i < |pool| - 1 && rest >= Weight(pool[i]) as real then Walk(pool, rest - Weight(pool[i]) as real, i + 1) else i
  }

  /** The point of a line from 0 to `length` at the given share of it. */
  function PointAt(share: real, length: nat): real { share * length as real }

  /** Roll `k`, as a point on the line from 0 to the total weight of what is left. */
  function RollAt(rolls: nat -> real, k: nat, pool: seq<Entry>): real { PointAt(rolls(k), Total(pool)) }

  /** The first `n` draws from a pool, before they are put in id order. */
  function Drawn(pool: seq<Entry>, rolls: nat -> real, n: nat): (r: (seq<Entry>, seq<Entry>))
    requires n <= |pool|
    ensures |r.0| == n && |r.1| == |pool| - n
  {
    if n == 0 then ([], pool)
    else
      var (picked, remaining) := Drawn(pool, rolls, n - 1);
      var idx := Walk(remaining, RollAt(rolls, n - 1, remaining), 0);
      (picked + [remaining[idx]], RemoveAt(remaining, idx))
  }

  /** A roll holds the question whose share of the line from 0 to the total it falls into. */
  predicate Holds(pool: seq<Entry>, roll: real, i: nat)
    requires i < |pool|
  {
    Total(pool[..i]) as real <= roll < Total(pool[..i + 1]) as real
  }

  /** The walk over the weights: for a roll in `[0, total)` it picks the question that holds the
      roll, so a question is picked in proportion to its weight. */
  method PickIndex(pool: seq<Entry>, roll: real) returns (idx: nat)
    requires pool != []
    ensures idx == Walk(pool, roll, 0)
    ensures 0.0 <= roll < Total(pool) as real ==> Holds(pool, roll, idx)
  {
    var rest := roll;
    idx := 0;
    assert Total(pool[..0]) == 0;
    while idx < |pool| - 1 && rest >= Weight(pool[idx]) as real
      invariant 0 <= idx <= |pool| - 1
      invariant rest == roll - Total(pool[..idx]) as real
      invariant 0.0 <= roll ==> 0.0 <= rest
      invariant Walk(pool, rest, idx) == Walk(pool, roll, 0)
    {
      NextShare(pool, idx);
      rest := rest - Weight(pool[idx]) as real;
      idx := idx + 1;
    }
    NextShare(pool, idx);
    assert pool[..|pool|] == pool;
    hide Total;
  }

  lemma NextShare(pool: seq<Entry>, i: nat)
    requires i < |pool|
    ensures Total(pool[..i + 1]) == Total(pool[..i]) + Weight(pool[i])
  {
    assert pool[..i + 1][..i] == pool[..i];
  }

  /** At most one question holds a roll. */
  lemma HoldsOnce(pool: seq<Entry>, roll: real, i: nat, j: nat)
    requires i < |pool| && j < |pool| && Holds(pool, roll, i) && Holds(pool, roll, j)
    ensures i == j
  {
    hide Total;
    if i < j {
      TotalPrefix(pool, i + 1, j);
    } else if j < i {
      TotalPrefix(pool, j + 1, i);
    }
  }

  lemma DrawnNone(pool: seq<Entry>, rolls: nat -> real)
    ensures Drawn(pool, rolls, 0) == ([], pool)
  {
  }

  lemma DrawnStep(pool: seq<Entry>, rolls: nat -> real, n: nat)
    requires n < |pool|
    ensures var picked, remaining := Drawn(pool, rolls, n).0, Drawn(pool, rolls, n).1;
      var idx := Walk(remaining, RollAt(rolls, n, remaining), 0);
      Drawn(pool, rolls, n + 1) == (picked + [remaining[idx]], RemoveAt(remaining, idx))
  {
    hide Walk;
    hide RollAt;
    hide RemoveAt;
  }

  /** A draw without replacement moves questions out of the pool, one each. */
  lemma {:induction false} DrawnPartition(pool: seq<Entry>, rolls: nat -> real, n: nat)
    requires n <= |pool|
    ensures var (picked, remaining) := Drawn(pool, rolls, n); multiset(picked) + multiset(remaining) == multiset(pool)
  {
    hide Walk;
    hide RollAt;
    hide RemoveAt;
    hide Drawn;
    if n > 0 {
      DrawnPartition(pool, rolls, n - 1);
      DrawnStep(pool, rolls, n - 1);
      var picked, remaining := Drawn(pool, rolls, n - 1).0, Drawn(pool, rolls, n - 1).1;
      var idx := Walk(remaining, RollAt(rolls, n - 1, remaining), 0);
      RemovePartition(remaining, idx);
      MovePartition(picked, remaining[idx], RemoveAt(remaining, idx), remaining, pool);
    } else {
      DrawnNone(pool, rolls);
    }
  }

  lemma MovePartition(picked: seq<Entry>, x: Entry, rest: seq<Entry>, remaining: seq<Entry>, pool: seq<Entry>)
    requires multiset(picked) + multiset(remaining) == multiset(pool) && multiset([x]) + multiset(rest) == multiset(remaining)
    ensures multiset(picked + [x]) + multiset(rest) == multiset(pool)
  {
  }

  lemma RemovePartition(pool: seq<Entry>, i: nat)
    requires i < |pool|
    ensures multiset([pool[i]]) + multiset(RemoveAt(pool, i)) == multiset(pool)
  {
    assert pool == pool[..i] + [pool[i]] + pool[i + 1..];
  }

  /** `localeCompare` on ids is a given order. */
  method SampleQuestions(entries: seq<Entry>, count: int, axes: seq<string>, rolls: nat -> real, idOrder: (Entry, Entry) -> bool)
    returns (picked: seq<Entry>)
    ensures var pool := Pool(entries, axes);
      && |picked| == (if count <= 0 then 0 else if count <= |pool| then count else |pool|)
      && picked == StableSort(Drawn(pool, rolls, |picked|).0, idOrder)
  {
    hide Walk;
    hide RollAt;
    hide StableSort;
    hide Pool;
    hide RemoveAt;
    hide Drawn;
    var pool := Pool(entries, axes);
    assert Drawn(pool, rolls, 0) == ([], pool) by { DrawnNone(pool, rolls); }
    var remaining := pool;
    var target := if count <= |remaining| then count else |remaining|;
    picked := [];
    while |picked| < target && |remaining| > 0
      invariant |picked| <= |pool| && (picked, remaining) == Drawn(pool, rolls, |picked|)
      invariant |picked| <= target || picked == []
      decreases |remaining|
    {
      var idx := PickIndex(remaining, RollAt(rolls, |picked|, remaining));
      DrawnStep(pool, rolls, |picked|);
      picked := picked + [remaining[idx]];
      remaining := RemoveAt(remaining, idx);
    }
    SortPermutes(picked, idOrder);
    picked := StableSort(picked, idOrder);
  }

  // ------------------------------------------------------------------- what is drawn

  /** The end of the first `i` shares on the weight line: three for an answer that states nothing,
      one for any other. */
  ghost function Line(pool: seq<Entry>, i: nat): nat
    requires i <= |pool|
  {
    if i == 0 then 0 else Line(pool, i - 1) + if pool[i - 1].grounding == "not_stated" then 3 else 1
  }

  lemma {:induction false} LineTotals(pool: seq<Entry>, i: nat)
    requires i <= |pool|
    ensures Line(pool, i) == Total(pool[..i])
  {
    if i > 0 {
      LineTotals(pool, i - 1);
      NextShare(pool, i - 1);
    }
  }

  /** The walk from share `i` on ends in the share that holds the roll. */
  lemma {:induction false} WalkHolds(pool: seq<Entry>, roll: real, i: nat)
    requires i < |pool| && Total(pool[..i]) as real <= roll < Total(pool) as real
    ensures Holds(pool, roll, Walk(pool, roll - Total(pool[..i]) as real, i))
    decreases |pool| - i
  {
    NextShare(pool, i);
    hide Total;
    hide Weight;
    if i < |pool| - 1 && roll - Total(pool[..i]) as real >= Weight(pool[i]) as real {
      WalkHolds(pool, roll, i + 1);
    } else if i == |pool| - 1 {
      assert pool[..i + 1] == pool;
    }
  }

  /** Every draw takes, out of what the draws before it left, the question whose share of the weight
      line holds the roll, and leaves the others in their order. */
  lemma DrawTakes(pool: seq<Entry>, rolls: nat -> real, n: nat) returns (i: nat)
    requires n < |pool| && 0.0 <= rolls(n) < 1.0
    ensures Drawn(pool, rolls, 0) == ([], pool)
    ensures var picked, remaining := Drawn(pool, rolls, n).0, Drawn(pool, rolls, n).1;
      && i < |remaining|
      && Line(remaining, i) as real <= PointAt(rolls(n), Line(remaining, |remaining|)) < Line(remaining, i + 1) as real
      && Drawn(pool, rolls, n + 1) == (picked + [remaining[i]], remaining[..i] + remaining[i + 1..])
  {
    var remaining := Drawn(pool, rolls, n).1;
    DrawnNone(pool, rolls);
    DrawnStep(pool, rolls, n);
    i := Walk(remaining, RollAt(rolls, n, remaining), 0);
    RollOnLine(rolls, n, remaining);
    WalkTakes(remaining, RollAt(rolls, n, remaining));
    hide PointAt;
    hide RollAt;
    hide Line;
    hide Walk;
    hide Drawn;
  }

  lemma RollOnLine(rolls: nat -> real, n: nat, pool: seq<Entry>)
    requires pool != [] && 0.0 <= rolls(n) < 1.0
    ensures RollAt(rolls, n, pool) == PointAt(rolls(n), Line(pool, |pool|))
    ensures 0.0 <= RollAt(rolls, n, pool) < Total(pool) as real
  {
    LineTotals(pool, |pool|);
    assert pool[..|pool|] == pool;
    SomeWeight(pool);
    LessThanAll(rolls(n), Total(pool));
    hide PointAt;
    hide Total;
    hide Line;
  }

  lemma WalkTakes(pool: seq<Entry>, roll: real)
    requires pool != [] && 0.0 <= roll < Total(pool) as real
    ensures var i := Walk(pool, roll, 0); Line(pool, i) as real <= roll < Line(pool, i + 1) as real
  {
    var i := Walk(pool, roll, 0);
    assert Total(pool[..0]) == 0;
    WalkHolds(pool, roll, 0);
    LineTotals(pool, i);
    LineTotals(pool, i + 1);
    hide Total;
    hide Line;
    hide Walk;
  }

  lemma SomeWeight(pool: seq<Entry>)
    requires pool != []
    ensures 0 < Total(pool)
  {
  }

  lemma LessThanAll(share: real, total: nat)
    requires 0.0 <= share < 1.0 && 0 < total
    ensures 0.0 <= PointAt(share, total) < total as real
  {
  }

  /** The entries with a wanted tag, or all of them when no axis is asked for. */
  ghost predicate Wanted(axes: seq<string>, e: Entry) { axes == [] || exists t :: t in e.tags && t in axes }

  lemma PoolWanted(entries: seq<Entry>, axes: seq<string>)
    ensures Pool(entries, axes) == Filter(entries, (e: Entry) => Wanted(axes, e))
  {
    if axes == [] {
      FilterAll(entries, (e: Entry) => Wanted(axes, e));
    } else {
      FilterSame(entries, HasAxis(axes), (e: Entry) => Wanted(axes, e));
    }
  }

  /** A sample: wanted questions only, none drawn more often than it occurs, in id order. */
  lemma SampleExact(entries: seq<Entry>, axes: seq<string>, rolls: nat -> real, n: nat, idOrder: (Entry, Entry) -> bool)
    requires n <= |Pool(entries, axes)| && Preorder(idOrder)
    ensures var picked := StableSort(Drawn(Pool(entries, axes), rolls, n).0, idOrder);
      && multiset(picked) <= multiset(Filter(entries, (e: Entry) => Wanted(axes, e))) && Sorted(picked, idOrder)
      && (forall e :: e in picked ==> e in entries && Wanted(axes, e))
  {
    hide *;
    var drawn := Drawn(Pool(entries, axes), rolls, n).0;
    DrawnPartition(Pool(entries, axes), rolls, n);
    SortPermutes(drawn, idOrder);
    SortSorted(drawn, idOrder);
    PoolWanted(entries, axes);
    FilterMembers(entries, (e: Entry) => Wanted(axes, e));
    PartOf(StableSort(drawn, idOrder), Pool(entries, axes));
  }

  lemma PartOf(a: seq<Entry>, b: seq<Entry>)
    requires multiset(a) <= multiset(b)
    ensures forall e :: e in a ==> e in b
  {
    forall e | e in a
      ensures e in b
    {
      assert e in multiset(a);
    }
  }
}
