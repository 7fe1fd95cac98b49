/** The two truncation strategies (context/strategies/sliding_window_pinned.ts and
    keep_last_n.ts), as loops over the buffer and as one specification. */
module ContextStrategies {
  import opened Sequences
  import opened ContextBudget

  datatype Fitted = Fitted(buffer: seq<Message>, evicted: seq<Message>)

  function Tail(b: seq<Message>, k: nat): seq<Message> { if k <= |b| then b[|b| - k..] else b }

  /** How many newest messages the backwards loop keeps before the first that overflows. */
  function Greedy(tok: string -> real, b: seq<Message>, room: real): (k: nat)
    ensures k <= |b|
  {
    if b == [] || Count(tok, b[|b| - 1]) > room then 0
    else 1 + Greedy(tok, b[..|b| - 1], room - Count(tok, b[|b| - 1]))
  }

  /** Insertion-ordered set of the `k` newest messages, newest first. */
  function Newest(b: seq<Message>, k: nat): seq<Message>
    requires k <= |b|
  {
    if k == 0 then []
    else
      var newer := Newest(b, k - 1);
      if b[|b| - k] in newer then newer else newer + [b[|b| - k]]
  }

  /** The map from objects to indices keeps the last index of an object met twice. */
  function IndexIn(b: seq<Message>, m: Message): int {
    if b == [] then -1 else if b[|b| - 1] == m then |b| - 1 else IndexIn(b[..|b| - 1], m)
  }

  function ByIndex(b: seq<Message>): (Message, Message) -> bool {
    (x: Message, y: Message) => IndexIn(b, x) <= IndexIn(b, y)
  }

  function NotKept(kept: seq<Message>): Message -> bool { (m: Message) => Evictable(m) && m !in kept }

  /** Pinned and kept messages put back in buffer order; everything else is evicted. */
  function Assemble(b: seq<Message>, kept: seq<Message>): Fitted {
    Fitted(StableSort(Filter(b, Pinned) + kept, ByIndex(b)), Filter(b, NotKept(kept)))
  }

  function Room(tok: string -> real, b: seq<Message>, budget: int): real {
    budget as real - Total(tok, Filter(b, Pinned))
  }

  function Sliding(tok: string -> real, b: seq<Message>, budget: int): Fitted {
    if Total(tok, b) <= budget as real then Fitted(b, [])
    else if Room(tok, b, budget) < 0.0 then Fitted(Filter(b, Pinned), Filter(b, Evictable))
    else
      var evictable := Filter(b, Evictable);
      Assemble(b, Newest(evictable, Greedy(tok, evictable, Room(tok, b, budget))))
  }

  /** `n` of the strategy options, 4 when absent or unusable. */
  function ResolveN(f: Field): nat {
    if f.Num? && 0.0 <= f.r then f.r.Floor else 4
  }

  /** A number that is not negative is cut to its whole part, zero included; anything else means 4. */
  lemma ResolveNExactly(f: Field)
    ensures f.Num? && f.r >= 0.0 ==> ResolveN(f) as real <= f.r < ResolveN(f) as real + 1.0
    ensures f.Absent? || f.Junk? || (f.Num? && f.r < 0.0) ==> ResolveN(f) == 4
  {
  }

  function LastN(tok: string -> real, evictable: seq<Message>, room: real, n: nat): seq<Message> {
    var candidate := Tail(evictable, n);
    if Total(tok, candidate) <= room then candidate else Tail(candidate, Greedy(tok, candidate, room))
  }

  function KeepLast(tok: string -> real, b: seq<Message>, budget: int, n: nat): Fitted {
    if Total(tok, b) <= budget as real then Fitted(b, [])
    else if Room(tok, b, budget) < 0.0 then Fitted(Filter(b, Pinned), Filter(b, Evictable))
    else Assemble(b, LastN(tok, Filter(b, Evictable), Room(tok, b, budget), n))
  }

  // ------------------------------------------------------------------- the loops

  lemma GreedyStep(tok: string -> real, b: seq<Message>, i: nat, room: real)
    requires 0 < i <= |b|
    ensures Greedy(tok, b[..i], room) ==
            if Count(tok, b[i - 1]) > room then 0 else 1 + Greedy(tok, b[..i - 1], room - Count(tok, b[i - 1]))
  {
    assert b[..i][..i - 1] == b[..i - 1] && b[..i][i - 1] == b[i - 1];
  }

  lemma NewestStep(b: seq<Message>, k: nat)
    requires k < |b|
    ensures Newest(b, k + 1) ==
            if b[|b| - k - 1] in Newest(b, k) then Newest(b, k) else Newest(b, k) + [b[|b| - k - 1]]
  {
  }

  /** The backwards loop: newest first, stop at the first overflow. */
  method KeepNewest(tok: string -> real, b: seq<Message>, room: real) returns (keptSet: seq<Message>, ghost k: nat)
    ensures k == Greedy(tok, b, room) && keptSet == Newest(b, k)
  {
    keptSet, k := [], 0;
    var acc := 0.0;
    var i := |b|;
    assert b[..i] == b && Newest(b, 0) == [];
    assert forall r :: Greedy(tok, b[..0], r) == 0;
    hide Greedy;
    hide Count;
    hide Newest;
    while i > 0
      invariant 0 <= i <= |b| && k == |b| - i
      invariant keptSet == Newest(b, k)
      invariant Greedy(tok, b, room) == k + Greedy(tok, b[..i], room - acc)
    {
      var m := b[i - 1];
      GreedyStep(tok, b, i, room - acc);
      NewestStep(b, k);
      var count := Count(tok, m);
      if acc + count <= room {
        if m !in keptSet {
          keptSet := keptSet + [m];
        }
        acc := acc + count;
        k := k + 1;
      } else {
        break;
      }
      i := i - 1;
    }
  }

  method SumPinned(tok: string -> real, b: seq<Message>) returns (pinned: seq<Message>, tokens: real)
    ensures pinned == Filter(b, Pinned) && tokens == Total(tok, pinned)
  {
    pinned, tokens := [], 0.0;
    assert Filter(b[..0], Pinned) == [] && Total(tok, []) == 0.0;
    hide Filter;
    hide Total;
    hide Count;
    for i := 0 to |b|
      invariant pinned == Filter(b[..i], Pinned) && tokens == Total(tok, pinned)
    {
      assert b[..i + 1] == b[..i] + [b[i]];
      FilterAppend(b[..i], [b[i]], Pinned);
      FilterOne(b[i], Pinned);
      if Pinned(b[i]) {
        TotalSnoc(tok, pinned, b[i]);
        pinned := pinned + [b[i]];
        tokens := tokens + Count(tok, b[i]);
      }
    }
    assert b[..|b|] == b;
  }

  method SlidingWindowPinned(tok: string -> real, b: seq<Message>, budget: int) returns (r: Fitted)
    ensures r == Sliding(tok, b, budget)
  {
    if Total(tok, b) <= budget as real {
      return Fitted(b, []);
    }
    var pinned, pinnedTokens := SumPinned(tok, b);
    var evictable := Filter(b, Evictable);
    if pinnedTokens > budget as real {
      return Fitted(pinned, evictable);
    }
    var keptSet, _ := KeepNewest(tok, evictable, budget as real - pinnedTokens);
    var evicted := Filter(b, NotKept(keptSet));
    return Fitted(StableSort(pinned + keptSet, ByIndex(b)), evicted);
  }

  method KeepLastN(tok: string -> real, b: seq<Message>, budget: int, option: Field) returns (r: Fitted)
    ensures r == KeepLast(tok, b, budget, ResolveN(option))
  {
    hide Filter;
    hide Total;
    hide LastN;
    hide StableSort;
    if Total(tok, b) <= budget as real {
      return Fitted(b, []);
    }
    var pinned, pinnedTokens := SumPinned(tok, b);
    var evictable := Filter(b, Evictable);
    if pinnedTokens > budget as real {
      return Fitted(pinned, evictable);
    }
    var kept := KeepCandidates(tok, evictable, budget as real - pinnedTokens, ResolveN(option));
    return Fitted(StableSort(pinned + kept, ByIndex(b)), Filter(b, NotKept(kept)));
  }

  method KeepCandidates(tok: string -> real, evictable: seq<Message>, room: real, n: nat) returns (kept: seq<Message>)
    requires 0.0 <= room
    ensures kept == LastN(tok, evictable, room, n)
  {
    kept := [];
    if n > 0 {
      var candidate := Tail(evictable, n);
      var total := SumNewestFirst(tok, candidate);
      if total <= room {
        kept := candidate;
      } else {
        kept := KeepSuffix(tok, candidate, room);
      }
    }
  }

  method SumNewestFirst(tok: string -> real, candidate: seq<Message>) returns (total: real)
    ensures total == Total(tok, candidate)
  {
    total := 0.0;
    var i := |candidate|;
    while i > 0
      invariant 0 <= i <= |candidate| && total == Total(tok, candidate[i..])
    {
      i := i - 1;
      assert candidate[i..] == [candidate[i]] + candidate[i + 1..];
      TotalConcat(tok, [candidate[i]], candidate[i + 1..]);
      assert [candidate[i]][..0] == [];
      total := total + Count(tok, candidate[i]);
    }
    assert candidate[0..] == candidate;
  }

  method KeepSuffix(tok: string -> real, candidate: seq<Message>, room: real) returns (kept: seq<Message>)
    ensures kept == Tail(candidate, Greedy(tok, candidate, room))
  {
    kept := [];
    var acc := 0.0;
    var i := |candidate|;
    assert candidate[..i] == candidate && candidate[i..] == [];
    while i > 0
      invariant 0 <= i <= |candidate| && kept == candidate[i..]
      invariant Greedy(tok, candidate, room) == |candidate| - i + Greedy(tok, candidate[..i], room - acc)
    {
      assert candidate[..i][..i - 1] == candidate[..i - 1];
      var count := Count(tok, candidate[i - 1]);
      if acc + count <= room {
        kept := [candidate[i - 1]] + kept;
        acc := acc + count;
      } else {
        break;
      }
      i := i - 1;
    }
  }
}
