/** What the strategies keep: one specification for both, and their budget. */
module ContextRetention {
  import opened Sequences
  import opened ContextBudget
  import opened ContextStrategies

  /** The specification of both strategies: in buffer order, the pinned messages and the last
      `k` evictable ones. */
  function Retain(b: seq<Message>, k: nat): seq<Message> {
    if b == [] then []
    else
      var init, last := b[..|b| - 1], b[|b| - 1];
      if Pinned(last) then Retain(init, k) + [last]
      else if k > 0 then Retain(init, k - 1) + [last]
      else Retain(init, 0)
  }

  /** The evictable messages that do not belong to the last `k`. */
  function Dropped(b: seq<Message>, k: nat): seq<Message> {
    var evictable := Filter(b, Evictable);
    if k <= |evictable| then evictable[..|evictable| - k] else []
  }

  // ------------------------------------------------------------------- the greatest suffix

  /** `k` is the greatest number of newest messages that fit. */
  ghost predicate GreatestSuffix(tok: string -> real, b: seq<Message>, room: real, k: nat) {
    && k <= |b|
    && (k > 0 ==> Total(tok, Tail(b, k)) <= room)
    && forall j: nat :: k < j <= |b| ==> Total(tok, Tail(b, j)) > room
  }

  lemma TailStep(tok: string -> real, b: seq<Message>, k: nat)
    requires 0 < k <= |b|
    ensures Tail(b, k) == Tail(b[..|b| - 1], k - 1) + [b[|b| - 1]]
    ensures Total(tok, Tail(b, k)) == Total(tok, Tail(b[..|b| - 1], k - 1)) + Count(tok, b[|b| - 1])
  {
    assert Tail(b, k)[..k - 1] == Tail(b[..|b| - 1], k - 1);
  }

  lemma OverflowAtOnce(tok: string -> real, b: seq<Message>, room: real, j: nat)
    requires Tokenizer(tok) && AllValid(b) && 0 < j <= |b| && Count(tok, b[|b| - 1]) > room
    ensures Total(tok, Tail(b, j)) > room
  {
    TailStep(tok, b, j);
    TotalNonNegative(tok, Tail(b[..|b| - 1], j - 1));
  }

  lemma GreatestGrows(tok: string -> real, b: seq<Message>, room: real, k: nat)
    requires b != [] && Count(tok, b[|b| - 1]) <= room
    requires GreatestSuffix(tok, b[..|b| - 1], room - Count(tok, b[|b| - 1]), k)
    ensures GreatestSuffix(tok, b, room, k + 1)
  {
    TailEmpty(tok, b[..|b| - 1]);
    hide Tail;
    hide Total;
    hide Count;
    forall j: nat | 0 < j <= |b|
      ensures Total(tok, Tail(b, j)) == Total(tok, Tail(b[..|b| - 1], j - 1)) + Count(tok, b[|b| - 1])
    {
      TailStep(tok, b, j);
    }
  }

  /** The greedy loop, which stops at the first overflow, finds the greatest fitting suffix. */
  lemma {:induction false} GreedyIsGreatest(tok: string -> real, b: seq<Message>, room: real)
    requires Tokenizer(tok) && AllValid(b)
    ensures GreatestSuffix(tok, b, room, Greedy(tok, b, room))
  {
    hide Tail;
    hide Total;
    hide Count;
    if b != [] {
      var init, last := b[..|b| - 1], b[|b| - 1];
      if Count(tok, last) > room {
        forall j: nat | 0 < j <= |b|
          ensures Total(tok, Tail(b, j)) > room
        {
          OverflowAtOnce(tok, b, room, j);
        }
      } else {
        assert AllValid(init) by { assert forall m :: m in init ==> m in b; }
        GreedyIsGreatest(tok, init, room - Count(tok, last));
        GreatestGrows(tok, b, room, Greedy(tok, init, room - Count(tok, last)));
      }
    }
  }

  /** More room never keeps fewer messages. */
  lemma GreedyMonotone(tok: string -> real, b: seq<Message>, room: real, more: real)
    requires Tokenizer(tok) && AllValid(b) && room <= more
    ensures Greedy(tok, b, room) <= Greedy(tok, b, more)
  {
    GreedyIsGreatest(tok, b, room);
    GreedyIsGreatest(tok, b, more);
    var k := Greedy(tok, b, room);
    assert k > 0 ==> Total(tok, Tail(b, k)) <= more;
  }

  lemma TailGrows(tok: string -> real, b: seq<Message>, j: nat, k: nat)
    requires Tokenizer(tok) && AllValid(b) && j <= k <= |b|
    ensures Total(tok, Tail(b, j)) <= Total(tok, Tail(b, k))
  {
    assert Tail(b, k)[k - j..] == Tail(b, j);
    assert AllValid(Tail(b, k));
    TotalTail(tok, Tail(b, k), k - j);
  }

  /** `keep-last-n` keeps the smaller of `n` and the greatest suffix that fits. */
  lemma LastNIsMin(tok: string -> real, b: seq<Message>, room: real, n: nat)
    requires Tokenizer(tok) && AllValid(b) && 0.0 <= room
    ensures var k := Greedy(tok, b, room);
      LastN(tok, b, room, n) == Tail(b, if n < k then n else k)
  {
    var k := Greedy(tok, b, room);
    GreedyIsGreatest(tok, b, room);
    var m := if n < |b| then n else |b|;
    assert Tail(b, n) == Tail(b, m);
    TailTail(b, m, k);
    if k < m {
      GreedyOfTail(tok, b, room, m);
    } else {
      TailGrows(tok, b, m, k);
      TailEmpty(tok, b);
    }
    hide Greedy;
    hide Tail;
    hide Total;
    hide AllValid;
    hide Tokenizer;
  }

  lemma TailEmpty(tok: string -> real, b: seq<Message>)
    ensures Total(tok, Tail(b, 0)) == 0.0
  {
    assert Tail(b, 0) == [];
  }

  lemma TailTail(b: seq<Message>, m: nat, k: nat)
    requires m <= |b| && k <= |b|
    ensures k <= m ==> Tail(Tail(b, m), k) == Tail(b, k)
    ensures |b| <= m ==> Tail(b, m) == b
  {
  }

  /** The greedy loop sees no difference between the buffer and a candidate that overflows. */
  lemma {:induction false} GreedyOfTail(tok: string -> real, b: seq<Message>, room: real, m: nat)
    requires Greedy(tok, b, room) < m <= |b|
    ensures Greedy(tok, Tail(b, m), room) == Greedy(tok, b, room)
  {
    TailStep(tok, b, m);
    assert Tail(b, m)[|Tail(b, m)| - 1] == b[|b| - 1];
    assert Tail(b, m)[..m - 1] == Tail(b[..|b| - 1], m - 1);
    if Count(tok, b[|b| - 1]) <= room {
      GreedyOfTail(tok, b[..|b| - 1], room - Count(tok, b[|b| - 1]), m - 1);
    }
  }

  // ------------------------------------------------------------------- the budget

  lemma {:induction false} NewestMembers(b: seq<Message>, k: nat)
    requires k <= |b|
    ensures forall m :: m in Newest(b, k) <==> m in Tail(b, k)
  {
    if k == 0 {
      assert Tail(b, 0) == [];
    } else {
      NewestMembers(b, k - 1);
      assert Tail(b, k) == [b[|b| - k]] + Tail(b, k - 1);
    }
  }

  lemma TailCons(tok: string -> real, b: seq<Message>, k: nat)
    requires 0 < k <= |b|
    ensures Tail(b, k) == [b[|b| - k]] + Tail(b, k - 1)
    ensures Total(tok, Tail(b, k)) == Count(tok, b[|b| - k]) + Total(tok, Tail(b, k - 1))
  {
    var m := b[|b| - k];
    assert Tail(b, k) == [m] + Tail(b, k - 1);
    TotalConcat(tok, [m], Tail(b, k - 1));
    assert [m][..0] == [];
  }

  lemma CountValid(tok: string -> real, m: Message)
    requires Tokenizer(tok) && Valid(m)
    ensures 0.0 <= Count(tok, m)
  {
  }

  /** A set holds no more tokens than the messages it was filled with. */
  lemma {:induction false} NewestTotal(tok: string -> real, b: seq<Message>, k: nat)
    requires Tokenizer(tok) && AllValid(b) && k <= |b|
    ensures Total(tok, Newest(b, k)) <= Total(tok, Tail(b, k))
  {
    hide Total;
    hide Count;
    hide Valid;
    hide Tail;
    if k == 0 {
      assert Newest(b, 0) == Tail(b, 0) by { NewestNone(b); }
    } else {
      NewestTotal(tok, b, k - 1);
      TailCons(tok, b, k);
      TotalSnoc(tok, Newest(b, k - 1), b[|b| - k]);
      assert b[|b| - k] in b;
      CountValid(tok, b[|b| - k]);
    }
  }

  lemma NewestNone(b: seq<Message>)
    ensures Newest(b, 0) == Tail(b, 0)
  {
  }

  lemma AssembleTotal(tok: string -> real, b: seq<Message>, kept: seq<Message>)
    ensures Total(tok, Assemble(b, kept).buffer) == Total(tok, Filter(b, Pinned)) + Total(tok, kept)
  {
    TotalSorted(tok, Filter(b, Pinned) + kept, ByIndex(b));
    TotalConcat(tok, Filter(b, Pinned), kept);
  }

  lemma FilterValid(b: seq<Message>, p: Message -> bool)
    requires AllValid(b)
    ensures AllValid(Filter(b, p))
  {
    FilterMembers(b, p);
  }

  /** When the pinned messages fit, so does the result, for any buffer of valid messages, even
      one that holds the same object twice. */
  lemma StrategiesFit(tok: string -> real, b: seq<Message>, budget: int, n: nat)
    requires Tokenizer(tok) && AllValid(b) && 0.0 <= Room(tok, b, budget)
    ensures Total(tok, Sliding(tok, b, budget).buffer) <= budget as real
    ensures Total(tok, KeepLast(tok, b, budget, n).buffer) <= budget as real
  {
    hide Greedy;
    hide Tail;
    hide Total;
    hide Filter;
    hide Assemble;
    hide Newest;
    hide LastN;
    hide AllValid;
    hide Tokenizer;
    var evictable, room := Filter(b, Evictable), Room(tok, b, budget);
    FilterValid(b, Evictable);
    var k := Greedy(tok, evictable, room);
    var j := if n < k then n else k;
    GreedyIsGreatest(tok, evictable, room);
    TailEmpty(tok, evictable);
    NewestTotal(tok, evictable, k);
    TailGrows(tok, evictable, j, k);
    LastNIsMin(tok, evictable, room, n);
    AssembleTotal(tok, b, Newest(evictable, k));
    AssembleTotal(tok, b, Tail(evictable, j));
  }

  // ------------------------------------------------------------------- one specification

  lemma FilterSnoc(b: seq<Message>, p: Message -> bool)
    requires b != []
    ensures Filter(b, p) == if p(b[|b| - 1]) then Filter(b[..|b| - 1], p) + [b[|b| - 1]] else Filter(b[..|b| - 1], p)
  {
    var init, last := b[..|b| - 1], b[|b| - 1];
    hide Filter;
    assert b == init + [last];
    FilterAppend(init, [last], p);
    FilterOne(last, p);
    assert Filter(init, p) + [] == Filter(init, p);
  }

  lemma FilterEmpty(p: Message -> bool)
    ensures Filter([], p) == []
  {
  }

  lemma RetainSnoc(b: seq<Message>, k: nat)
    requires b != []
    ensures var init, last := b[..|b| - 1], b[|b| - 1];
      Retain(b, k) == if Pinned(last) then Retain(init, k) + [last]
                      else if k > 0 then Retain(init, k - 1) + [last]
                      else Retain(init, 0)
  {
  }

  lemma TailSnoc(s: seq<Message>, x: Message, k: nat)
    ensures k > 0 ==> Tail(s + [x], k) == Tail(s, k - 1) + [x]
    ensures Tail(s, 0) == []
  {
  }

  /** `Retain` keeps every pinned message and exactly the last `k` evictable ones. */
  lemma {:induction false} RetainContents(b: seq<Message>, k: nat)
    requires k <= |Filter(b, Evictable)|
    ensures multiset(Retain(b, k)) == multiset(Filter(b, Pinned)) + multiset(Tail(Filter(b, Evictable), k))
  {
    hide Filter;
    hide Tail;
    if b == [] {
      FilterEmpty(Pinned);
      FilterEmpty(Evictable);
      assert Tail([], k) == [] by { TailSnoc([], NotObject(0), 0); }
    } else {
      hide Retain;
      var init, last := b[..|b| - 1], b[|b| - 1];
      FilterSnoc(b, Pinned);
      FilterSnoc(b, Evictable);
      RetainSnoc(b, k);
      TailSnoc(Filter(init, Evictable), last, k);
      TailSnoc(Filter(b, Evictable), last, 0);
      if Pinned(last) {
        RetainContents(init, k);
      } else if k > 0 {
        RetainContents(init, k - 1);
      } else {
        RetainContents(init, 0);
      }
    }
  }

  lemma {:induction false} IndexInExact(b: seq<Message>, i: nat)
    requires Distinct(b) && i < |b|
    ensures IndexIn(b, b[i]) == i
  {
    if i < |b| - 1 {
      IndexInExact(b[..|b| - 1], i);
    }
  }

  /** In a buffer of distinct objects `Retain` lists its messages by strictly growing index. */
  lemma {:induction false} RetainOrdered(b: seq<Message>, i: nat, k: nat)
    requires Distinct(b) && i <= |b|
    ensures forall m :: m in Retain(b[..i], k) ==> IndexIn(b, m) < i
    ensures StrictlySorted(Retain(b[..i], k), ByIndex(b))
  {
    if i > 0 {
      var init, last := b[..i - 1], b[i - 1];
      assert b[..i][..i - 1] == init;
      IndexInExact(b, i - 1);
      RetainOrdered(b, i - 1, k);
      if k > 0 {
        RetainOrdered(b, i - 1, k - 1);
      } else {
        RetainOrdered(b, i - 1, 0);
      }
      hide IndexIn;
    }
  }

  lemma TailAvoids(b: seq<Message>, k: nat)
    requires Distinct(b) && 0 < k <= |b|
    ensures b[|b| - k] !in Tail(b, k - 1)
  {
    var rest := Tail(b, k - 1);
    assert forall i :: 0 <= i < |rest| ==> rest[i] == b[|b| - k + 1 + i];
  }

  lemma {:induction false} NewestMultiset(b: seq<Message>, k: nat)
    requires Distinct(b) && k <= |b|
    ensures multiset(Newest(b, k)) == multiset(Tail(b, k))
  {
    hide Tail;
    hide Distinct;
    if k == 0 {
      NewestNone(b);
    } else {
      NewestMultiset(b, k - 1);
      NewestMembers(b, k - 1);
      TailAvoids(b, k);
      TailCons(s => 0.0, b, k);
      assert Newest(b, k) == Newest(b, k - 1) + [b[|b| - k]];
    }
  }

  function NotIn(kept: seq<Message>): Message -> bool { (m: Message) => m !in kept }

  lemma {:induction false} FilterTwice(b: seq<Message>, kept: seq<Message>)
    ensures Filter(b, NotKept(kept)) == Filter(Filter(b, Evictable), NotIn(kept))
  {
    if b != [] {
      FilterTwice(b[1..], kept);
      FilterCons(b[0], Filter(b[1..], Evictable), NotIn(kept));
      assert [] + Filter(b[1..], Evictable) == Filter(b[1..], Evictable);
    }
  }

  lemma {:induction false} FilterDistinct(b: seq<Message>, p: Message -> bool)
    requires Distinct(b)
    ensures Distinct(Filter(b, p))
  {
    if b != [] {
      FilterDistinct(b[1..], p);
      FilterMembers(b[1..], p);
    }
  }

  lemma DroppedExact(b: seq<Message>, k: nat, kept: seq<Message>)
    requires Distinct(b) && k <= |Filter(b, Evictable)|
    requires forall m :: m in kept <==> m in Tail(Filter(b, Evictable), k)
    ensures Filter(b, NotKept(kept)) == Dropped(b, k)
  {
    var ev := Filter(b, Evictable);
    var p := NotIn(kept);
    FilterTwice(b, kept);
    FilterDistinct(b, Evictable);
    var first, rest := ev[..|ev| - k], ev[|ev| - k..];
    assert ev == first + rest && rest == Tail(ev, k);
    FilterAppend(first, rest, p);
    FilterAll(first, p) by {
      assert forall m :: m in first ==> m !in rest;
    }
    FilterNone(rest, p);
  }

  lemma AssembleRetains(b: seq<Message>, k: nat, kept: seq<Message>)
    requires Distinct(b) && k <= |Filter(b, Evictable)|
    requires multiset(kept) == multiset(Tail(Filter(b, Evictable), k))
    ensures Assemble(b, kept) == Fitted(Retain(b, k), Dropped(b, k))
  {
    RetainContents(b, k);
    RetainOrdered(b, |b|, k);
    assert b[..|b|] == b;
    SortRestores(Filter(b, Pinned) + kept, Retain(b, k), ByIndex(b));
    forall m
      ensures m in kept <==> m in Tail(Filter(b, Evictable), k)
    {
      assert m in kept <==> m in multiset(kept);
    }
    DroppedExact(b, k, kept);
  }

  /** Both strategies meet one specification. For a buffer of distinct valid messages that is
      over budget while its pinned part is not, the result is the buffer reduced to its pinned
      messages and its last `k` evictable ones, in the original order, and the rest is evicted:
      for `sliding-window-pinned` `k` is the greatest suffix length that fits, for
      `keep-last-n` the smaller of that and `n`. */
  lemma OneSpecification(tok: string -> real, b: seq<Message>, budget: int, n: nat)
    requires Tokenizer(tok) && AllValid(b) && Distinct(b)
    requires 0.0 <= Room(tok, b, budget) && Total(tok, b) > budget as real
    ensures var evictable := Filter(b, Evictable);
      var k := Greedy(tok, evictable, Room(tok, b, budget));
      && GreatestSuffix(tok, evictable, Room(tok, b, budget), k)
      && Sliding(tok, b, budget) == Fitted(Retain(b, k), Dropped(b, k))
      && KeepLast(tok, b, budget, n) == (var j := if n < k then n else k; Fitted(Retain(b, j), Dropped(b, j)))
  {
    var evictable, room := Filter(b, Evictable), Room(tok, b, budget);
    FilterValid(b, Evictable);
    FilterDistinct(b, Evictable);
    GreedyIsGreatest(tok, evictable, room);
    var k := Greedy(tok, evictable, room);
    NewestMultiset(evictable, k);
    AssembleRetains(b, k, Newest(evictable, k));
    LastNIsMin(tok, evictable, room, n);
    var j := if n < k then n else k;
    AssembleRetains(b, j, Tail(evictable, j));
  }

  /** Retained and dropped messages partition the buffer. */
  lemma RetainPartitions(b: seq<Message>, k: nat)
    requires k <= |Filter(b, Evictable)|
    ensures multiset(Retain(b, k)) + multiset(Dropped(b, k)) == multiset(b)
    ensures |Retain(b, k)| + |Dropped(b, k)| == |b|
  {
    var ev := Filter(b, Evictable);
    RetainContents(b, k);
    assert ev == Dropped(b, k) + Tail(ev, k);
    FilterPartition(b);
    assert |multiset(Retain(b, k)) + multiset(Dropped(b, k))| == |multiset(b)|;
  }

  lemma {:induction false} FilterPartition(b: seq<Message>)
    ensures multiset(Filter(b, Pinned)) + multiset(Filter(b, Evictable)) == multiset(b)
  {
    hide Filter;
    if b == [] {
      FilterEmpty(Pinned);
      FilterEmpty(Evictable);
    } else {
      FilterPartition(b[..|b| - 1]);
      FilterSnoc(b, Pinned);
      FilterSnoc(b, Evictable);
      assert b == b[..|b| - 1] + [b[|b| - 1]];
    }
  }

  function In(kept: seq<Message>): Message -> bool { (m: Message) => m in kept }

  lemma {:induction false} FilterComplement(b: seq<Message>, kept: seq<Message>)
    ensures |Filter(b, In(kept))| + |Filter(b, NotIn(kept))| == |b|
  {
    if b != [] {
      FilterComplement(b[1..], kept);
    }
  }

  lemma {:induction false} NewestDistinct(b: seq<Message>, k: nat)
    requires k <= |b|
    ensures Distinct(Newest(b, k))
  {
    if k > 0 {
      NewestDistinct(b, k - 1);
    }
  }

  /** What a strategy loses: an entry that is neither returned nor reported is a further copy of a
      kept object. */
  lemma AssembleLoses(b: seq<Message>, kept: seq<Message>)
    ensures var ev, r := Filter(b, Evictable), Assemble(b, kept);
      |b| - |r.buffer| - |r.evicted| == |Filter(ev, In(kept))| - |kept|
  {
    hide Filter;
    hide StableSort;
    var ev := Filter(b, Evictable);
    SortPermutes(Filter(b, Pinned) + kept, ByIndex(b));
    FilterTwice(b, kept);
    FilterComplement(ev, kept);
    FilterPartition(b);
    assert |multiset(Filter(b, Pinned)) + multiset(ev)| == |multiset(b)|;
  }

  /** Distinct objects are needed for the partition, under both strategies. No copy of a kept
      object is reported as evicted: the entries that are neither returned nor reported are
      exactly the copies of kept objects beyond those kept. The sliding window keeps each object
      once, `keep-last-n` each copy among the last ones. */
  lemma RepeatedObjectsAreLost(tok: string -> real, b: seq<Message>, budget: int, n: nat)
    requires 0.0 <= Room(tok, b, budget) && Total(tok, b) > budget as real
    ensures var ev, r := Filter(b, Evictable), Sliding(tok, b, budget);
      var kept := Newest(ev, Greedy(tok, ev, Room(tok, b, budget)));
      && Distinct(kept)
      && |b| - |r.buffer| - |r.evicted| == |Filter(ev, In(kept))| - |kept|
    ensures var ev, r := Filter(b, Evictable), KeepLast(tok, b, budget, n);
      var kept := LastN(tok, ev, Room(tok, b, budget), n);
      |b| - |r.buffer| - |r.evicted| == |Filter(ev, In(kept))| - |kept|
  {
    hide Filter;
    hide Newest;
    hide Greedy;
    hide Assemble;
    hide Distinct;
    hide Total;
    hide Room;
    hide LastN;
    var ev := Filter(b, Evictable);
    var k := Greedy(tok, ev, Room(tok, b, budget));
    NewestDistinct(ev, k);
    AssembleLoses(b, Newest(ev, k));
    AssembleLoses(b, LastN(tok, ev, Room(tok, b, budget), n));
  }
}
