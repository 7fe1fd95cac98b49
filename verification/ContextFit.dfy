/** `fit` and `append` (context/core.ts): entries are checked, two pre-checks may reject, and
    only then a truncation strategy runs. Copies are returned; the caller's array is untouched. */
module ContextFit {
  import opened Sequences
  import opened ContextBudget
  import opened ContextStrategies
  import opened ContextRetention

  datatype Status = Status(total: real, budget: int, truncated: bool, evicted: int, warning: Warning,
                           rejected: bool, reason: Option<string>, strategy: string)

  datatype FitResult = FitResult(buffer: seq<Message>, status: Status)

  /** The tokenizer of the resolved profile and the window the profile table gives a profile. */
  datatype Counter = Counter(tok: string -> real, windowOf: string -> real)

  const PINNED_EXCEEDS := "pinned_exceeds_budget"
  const SINGLE_EXCEEDS := "single_message_exceeds_budget"

  function Applied(name: string): string { if name == KEEP_LAST then KEEP_LAST else SLIDING }

  function Report(t: Counter, e: Effective, budget: int, buffer: seq<Message>, evicted: int): FitResult {
    var total := Total(t.tok, buffer);
    FitResult(buffer, Status(total, budget, evicted > 0, evicted, Classify(total, budget, e, true), false, None,
                             Applied(e.strategy)))
  }

  function Reject(t: Counter, e: Effective, budget: int, buffer: seq<Message>, evicted: int, reason: string): FitResult {
    FitResult(buffer, Status(Total(t.tok, buffer), budget, false, evicted, Exceeded, true, Some(reason),
                             Applied(e.strategy)))
  }

  function Truncate(t: Counter, e: Effective, clean: seq<Message>): Fitted {
    var budget := ResolveInputBudget(t.windowOf, e);
    if Applied(e.strategy) == KEEP_LAST then KeepLast(t.tok, clean, budget, ResolveN(e.n))
    else Sliding(t.tok, clean, budget)
  }

  function InputBudget(t: Counter, c: Config): int { CalcBudget(t.windowOf, AsConfig(ResolveConfig(c))).inputBudget }

  function Latest(clean: seq<Message>): Message
    requires clean != []
  {
    clean[|clean| - 1]
  }

  /** The second pre-check: the latest message, or the pinned ones together with it, overflow. */
  predicate LatestOverflows(t: Counter, clean: seq<Message>, budget: int)
    requires clean != []
  {
    var latest := Count(t.tok, Latest(clean));
    latest > budget as real || Total(t.tok, Filter(clean, Pinned)) + latest > budget as real
  }

  function FitClean(t: Counter, e: Effective, budget: int, clean: seq<Message>, invalid: int): FitResult {
    if clean == [] then Report(t, e, budget, [], invalid)
    else if Total(t.tok, Filter(clean, Pinned)) > budget as real then
      Reject(t, e, budget, Filter(clean, Pinned), invalid, PINNED_EXCEEDS)
    else if LatestOverflows(t, clean, budget) then Reject(t, e, budget, clean, invalid, SINGLE_EXCEEDS)
    else
      var r := Truncate(t, e, clean);
      Report(t, e, budget, r.buffer, invalid + |r.evicted|)
  }

  /** The specification of `fit`. */
  function Fit(t: Counter, b: seq<Message>, c: Config): FitResult {
    var clean := Filter(b, Valid);
    FitClean(t, ResolveConfig(c), InputBudget(t, c), clean, |b| - |clean|)
  }

  method Validate(b: seq<Message>) returns (clean: seq<Message>, invalidCount: int)
    ensures clean == Filter(b, Valid) && invalidCount == |b| - |clean|
  {
    clean, invalidCount := [], 0;
    for i := 0 to |b|
      invariant clean == Filter(b[..i], Valid) && invalidCount == i - |clean|
    {
      assert b[..i + 1] == b[..i] + [b[i]];
      FilterAppend(b[..i], [b[i]], Valid);
      FilterOne(b[i], Valid);
      if Valid(b[i]) {
        clean := clean + [b[i]];
      } else {
        invalidCount := invalidCount + 1;
      }
    }
    assert b[..|b|] == b;
  }

  /** `fit`, step by step. */
  method FitBuffer(t: Counter, b: seq<Message>, c: Config) returns (r: FitResult)
    ensures r == Fit(t, b, c)
  {
    var e := ResolveConfig(c);
    var budget := CalcBudget(t.windowOf, AsConfig(e)).inputBudget;
    if b == [] {
      return Report(t, e, budget, [], 0);
    }
    var clean, invalidCount := Validate(b);
    if clean == [] {
      return Report(t, e, budget, [], invalidCount);
    }
    var pinned, pinnedTokens := SumPinned(t.tok, clean);
    if pinnedTokens > budget as real {
      return Reject(t, e, budget, pinned, invalidCount, PINNED_EXCEEDS);
    }
    var latestTokens := Count(t.tok, clean[|clean| - 1]);
    if latestTokens > budget as real || pinnedTokens + latestTokens > budget as real {
      return Reject(t, e, budget, clean, invalidCount, SINGLE_EXCEEDS);
    }
    var res: Fitted;
    if e.strategy == KEEP_LAST {
      res := KeepLastN(t.tok, clean, ResolveInputBudget(t.windowOf, e), e.n);
    } else {
      res := SlidingWindowPinned(t.tok, clean, ResolveInputBudget(t.windowOf, e));
    }
    r := Report(t, e, budget, res.buffer, invalidCount + |res.evicted|);
  }

  /** `append`: the input buffer is a value, so it is not mutated. */
  method Append(t: Counter, b: seq<Message>, m: Message, c: Config) returns (r: FitResult)
    ensures r == Fit(t, b + [m], c)
  {
    r := FitBuffer(t, b + [m], c);
  }

  // ------------------------------------------------------------------- the result is bounded

  ghost predicate Accepts(t: Counter, b: seq<Message>, c: Config) { !Fit(t, b, c).status.rejected }

  lemma CleanIsValid(b: seq<Message>)
    ensures AllValid(Filter(b, Valid))
  {
    FilterMembers(b, Valid);
  }

  /** `fit` rejects exactly when one of its two pre-checks fails; a strategy never fails. */
  lemma RejectsExactly(t: Counter, b: seq<Message>, c: Config)
    requires Tokenizer(t.tok)
    ensures var clean := Filter(b, Valid);
      Accepts(t, b, c) <==>
      clean != [] ==> Total(t.tok, Filter(clean, Pinned)) + Count(t.tok, Latest(clean)) <= InputBudget(t, c) as real
  {
    var clean := Filter(b, Valid);
    CleanIsValid(b);
    if clean != [] {
      assert Latest(clean) in clean;
      CountValid(t.tok, Latest(clean));
      FilterValid(clean, Pinned);
      TotalNonNegative(t.tok, Filter(clean, Pinned));
    }
    hide Total;
    hide Count;
    hide Valid;
    hide Filter;
  }

  lemma SameBudget(t: Counter, c: Config)
    ensures ResolveInputBudget(t.windowOf, ResolveConfig(c)) == InputBudget(t, c) && 0 <= InputBudget(t, c)
  {
    BudgetsAgree(t.windowOf, c);
  }

  /** A result that is not rejected is within the budget `fit` reports, although the strategy
      worked with a budget of its own, and even when one object occurs twice in the buffer. */
  lemma WithinBudget(t: Counter, b: seq<Message>, c: Config)
    requires Tokenizer(t.tok) && Accepts(t, b, c)
    ensures var r := Fit(t, b, c);
      && Total(t.tok, r.buffer) == r.status.total <= r.status.budget as real
      && r.status.budget == InputBudget(t, c)
      && AllValid(r.buffer) && forall m :: m in r.buffer ==> m in b
  {
    var clean := Filter(b, Valid);
    SameBudget(t, c);
    CleanIsValid(b);
    FilterMembers(b, Valid);
    if clean != [] {
      RejectsExactly(t, b, c);
      CountValid(t.tok, Latest(clean));
      StrategiesFit(t.tok, clean, InputBudget(t, c), ResolveN(c.n));
      TruncateMembers(t, ResolveConfig(c), clean);
    }
    hide Filter;
    hide Sliding;
    hide KeepLast;
    hide ResolveInputBudget;
    hide InputBudget;
    hide Classify;
    hide Valid;
    hide Count;
  }

  /** A message that `fit` admits: one of the four roles, a text, metadata that is an object, and, if
      given, a whole priority from 0 to 100 and a cached count that is not negative. */
  predicate Admitted(m: Message) {
    && m.Message?
    && (m.role == "system" || m.role == "user" || m.role == "assistant" || m.role == "tool")
    && m.content.Some? && !m.badMetadata
    && (m.priority == Absent || (m.priority.Num? && 0.0 <= m.priority.r <= 100.0 && m.priority.r == m.priority.r.Floor as real))
    && (m.cachedCount == Absent || (m.cachedCount.Num? && 0.0 <= m.cachedCount.r))
  }

  /** Every message of an accepted result is an admitted one of the input; and when the admitted
      ones fit together, the result is exactly these, in order. */
  lemma AdmitsExactly(t: Counter, b: seq<Message>, c: Config)
    requires Tokenizer(t.tok) && Accepts(t, b, c)
    ensures forall m :: m in Fit(t, b, c).buffer ==> m in b && Admitted(m)
    ensures Total(t.tok, Filter(b, Admitted)) <= InputBudget(t, c) as real ==> Fit(t, b, c).buffer == Filter(b, Admitted)
  {
    WithinBudget(t, b, c);
    AdmittedValid();
    FilterSame(b, Admitted, Valid);
    if Total(t.tok, Filter(b, Admitted)) <= InputBudget(t, c) as real {
      FitsAll(t, b, c);
    }
    hide Valid;
    hide Admitted;
    hide Total;
    hide Fit;
    hide Filter;
    hide InputBudget;
  }

  lemma AdmittedValid()
    ensures forall m :: Admitted(m) <==> Valid(m)
  {
  }

  lemma FitsAll(t: Counter, b: seq<Message>, c: Config)
    requires Tokenizer(t.tok) && Accepts(t, b, c) && Total(t.tok, Filter(b, Valid)) <= InputBudget(t, c) as real
    ensures Fit(t, b, c).buffer == Filter(b, Valid)
  {
    SameBudget(t, c);
    hide Filter;
    hide Total;
    hide Count;
    hide Valid;
    hide Classify;
    hide InputBudget;
    hide ResolveInputBudget;
    hide ResolveConfig;
  }

  /** What a rejection hands back, and why: the pinned messages when they alone exceed the budget,
      otherwise all admitted ones, because of the latest. */
  lemma RejectionSays(t: Counter, b: seq<Message>, c: Config)
    requires !Accepts(t, b, c)
    ensures var r, clean := Fit(t, b, c), Filter(b, Admitted);
      var pinned := Filter(clean, (m: Message) => m.Message? && m.pinned);
      if Total(t.tok, pinned) > InputBudget(t, c) as real
      then r.buffer == pinned && r.status.reason == Some("pinned_exceeds_budget")
      else r.buffer == clean && r.status.reason == Some("single_message_exceeds_budget")
  {
    AdmittedValid();
    FilterSame(b, Admitted, Valid);
    FilterSame(Filter(b, Valid), Pinned, (m: Message) => m.Message? && m.pinned);
    hide Valid;
    hide Admitted;
    hide Filter;
    hide Total;
    hide InputBudget;
    hide Truncate;
  }

  lemma AssembleMembers(b: seq<Message>, kept: seq<Message>)
    ensures forall m :: m in Assemble(b, kept).buffer <==> (m in b && Pinned(m)) || m in kept
  {
    SortMembers(Filter(b, Pinned) + kept, ByIndex(b));
    FilterMembers(b, Pinned);
  }

  lemma TruncateMembers(t: Counter, e: Effective, b: seq<Message>)
    requires Tokenizer(t.tok) && AllValid(b) && 0.0 <= Room(t.tok, b, ResolveInputBudget(t.windowOf, e))
    ensures forall m :: m in Truncate(t, e, b).buffer ==> m in b
  {
    KeptMembers(t, e, b);
    FilterMembers(b, Evictable);
  }

  /** The number of newest evictable messages a strategy keeps when the buffer is over budget. */
  function KeptCount(t: Counter, e: Effective, b: seq<Message>): nat {
    var k := Greedy(t.tok, Filter(b, Evictable), Room(t.tok, b, ResolveInputBudget(t.windowOf, e)));
    if Applied(e.strategy) == KEEP_LAST && ResolveN(e.n) < k then ResolveN(e.n) else k
  }

  ghost predicate OverBudget(t: Counter, e: Effective, b: seq<Message>) {
    Total(t.tok, b) > ResolveInputBudget(t.windowOf, e) as real
  }

  lemma KeptBySliding(tok: string -> real, b: seq<Message>, budget: int)
    requires Tokenizer(tok) && AllValid(b) && 0.0 <= Room(tok, b, budget)
    ensures var ev := Filter(b, Evictable);
      && Greedy(tok, ev, Room(tok, b, budget)) <= |ev|
      && (Total(tok, b) > budget as real ==> forall m :: m in Sliding(tok, b, budget).buffer <==>
            (m in b && Pinned(m)) || m in Tail(ev, Greedy(tok, ev, Room(tok, b, budget))))
  {
    hide Filter;
    hide Total;
    hide Assemble;
    hide Newest;
    hide Tail;
    hide Room;
    hide AllValid;
    var ev := Filter(b, Evictable);
    var k := Greedy(tok, ev, Room(tok, b, budget));
    NewestMembers(ev, k);
    AssembleMembers(b, Newest(ev, k));
  }

  lemma KeptByKeepLast(tok: string -> real, b: seq<Message>, budget: int, n: nat)
    requires Tokenizer(tok) && AllValid(b) && 0.0 <= Room(tok, b, budget)
    ensures var ev := Filter(b, Evictable);
      var k := Greedy(tok, ev, Room(tok, b, budget));
      Total(tok, b) > budget as real ==> forall m :: m in KeepLast(tok, b, budget, n).buffer <==>
        (m in b && Pinned(m)) || m in Tail(ev, if n < k then n else k)
  {
    hide Filter;
    hide Total;
    hide Assemble;
    hide LastN;
    hide Tail;
    hide Room;
    hide AllValid;
    hide Tokenizer;
    var ev := Filter(b, Evictable);
    var k := Greedy(tok, ev, Room(tok, b, budget));
    FilterValid(b, Evictable);
    LastNIsMin(tok, ev, Room(tok, b, budget), n);
    AssembleMembers(b, Tail(ev, if n < k then n else k));
  }

  /** Which messages a strategy keeps. */
  lemma KeptMembers(t: Counter, e: Effective, b: seq<Message>)
    requires Tokenizer(t.tok) && AllValid(b) && 0.0 <= Room(t.tok, b, ResolveInputBudget(t.windowOf, e))
    ensures KeptCount(t, e, b) <= |Filter(b, Evictable)|
    ensures !OverBudget(t, e, b) ==> Truncate(t, e, b) == Fitted(b, [])
    ensures OverBudget(t, e, b) ==> forall m ::
      m in Truncate(t, e, b).buffer <==> (m in b && Pinned(m)) || m in Tail(Filter(b, Evictable), KeptCount(t, e, b))
  {
    var budget := ResolveInputBudget(t.windowOf, e);
    if OverBudget(t, e, b) {
      KeptBySliding(t.tok, b, budget);
      KeptByKeepLast(t.tok, b, budget, ResolveN(e.n));
      hide Sliding;
      hide KeepLast;
    }
    hide Filter;
    hide Tail;
    hide Total;
    hide Greedy;
    hide Room;
    hide AllValid;
    hide Tokenizer;
    hide ResolveInputBudget;
  }

  // ------------------------------------------------------------------- the latest message

  lemma LastEvictable(b: seq<Message>)
    requires b != [] && !Pinned(Latest(b))
    ensures Filter(b, Evictable) != [] && Latest(Filter(b, Evictable)) == Latest(b)
  {
    FilterSnoc(b, Evictable);
  }

  lemma TailHasLast(s: seq<Message>, k: nat)
    requires s != [] && k > 0
    ensures Latest(s) in Tail(s, k)
  {
    assert Tail(s, k)[|Tail(s, k)| - 1] == Latest(s);
  }

  /** An accepted buffer keeps its latest message, unless `keep-last-n` was told to keep nothing,
      the buffer was over budget and the latest message was not pinned. */
  lemma LatestKept(t: Counter, b: seq<Message>, c: Config)
    requires Tokenizer(t.tok) && Accepts(t, b, c) && Filter(b, Valid) != []
    ensures var clean, e := Filter(b, Valid), ResolveConfig(c);
      Latest(clean) in Fit(t, b, c).buffer <==>
        Applied(e.strategy) == SLIDING || ResolveN(c.n) > 0 || Total(t.tok, clean) <= InputBudget(t, c) as real ||
        Pinned(Latest(clean))
  {
    hide Total;
    hide Tail;
    hide Tokenizer;
    hide Count;
    hide Classify;
    hide Truncate;
    hide ResolveInputBudget;
    hide InputBudget;
    var clean, e := Filter(b, Valid), ResolveConfig(c);
    var latest, ev := Latest(clean), Filter(clean, Evictable);
    SameBudget(t, c);
    CleanIsValid(b);
    RejectsExactly(t, b, c);
    assert latest in clean;
    CountValid(t.tok, latest);
    KeptMembers(t, e, clean);
    if !Pinned(latest) {
      LastEvictable(clean);
      assert KeptCount(t, e, clean) > 0 <==> Applied(e.strategy) == SLIDING || ResolveN(c.n) > 0;
      if KeptCount(t, e, clean) > 0 {
        TailHasLast(ev, KeptCount(t, e, clean));
      } else {
        assert Tail(ev, 0) == [] by { TailSnoc(ev, latest, 0); }
      }
    }
    hide Filter;
    hide KeptCount;
  }

  // ------------------------------------------------------------------- refitting

  lemma {:induction false} PinnedInsert(tok: string -> real, x: Message, s: seq<Message>, le: (Message, Message) -> bool)
    ensures Total(tok, Filter(Insert(x, s, le), Pinned)) ==
            (if Pinned(x) then Count(tok, x) else 0.0) + Total(tok, Filter(s, Pinned))
  {
    if s == [] || le(x, s[0]) {
      FilterCons(x, s, Pinned);
      TotalCons(tok, x, Filter(s, Pinned));
      assert Insert(x, s, le) == [x] + s;
    } else {
      var rest := Insert(x, s[1..], le);
      PinnedInsert(tok, x, s[1..], le);
      FilterCons(s[0], rest, Pinned);
      FilterCons(s[0], s[1..], Pinned);
      TotalCons(tok, s[0], Filter(rest, Pinned));
      TotalCons(tok, s[0], Filter(s[1..], Pinned));
      assert s == [s[0]] + s[1..];
    }
    hide Filter;
    hide Total;
    hide Count;
  }

  lemma TotalCons(tok: string -> real, x: Message, s: seq<Message>)
    ensures Total(tok, [x] + s) == Count(tok, x) + Total(tok, s)
    ensures Total(tok, [] + s) == Total(tok, s)
  {
    TotalConcat(tok, [x], s);
    assert [x][..0] == [] && [] + s == s;
  }

  /** Sorting does not change how many pinned tokens a list holds. */
  lemma {:induction false} PinnedSorted(tok: string -> real, s: seq<Message>, le: (Message, Message) -> bool)
    ensures Total(tok, Filter(StableSort(s, le), Pinned)) == Total(tok, Filter(s, Pinned))
  {
    if s != [] {
      PinnedSorted(tok, s[1..], le);
      PinnedInsert(tok, s[0], StableSort(s[1..], le), le);
      FilterCons(s[0], s[1..], Pinned);
      TotalCons(tok, s[0], Filter(s[1..], Pinned));
      assert s == [s[0]] + s[1..];
    }
    hide Total;
    hide Count;
  }

  lemma AssemblePinned(tok: string -> real, b: seq<Message>, kept: seq<Message>)
    requires forall m :: m in kept ==> Evictable(m)
    ensures Total(tok, Filter(Assemble(b, kept).buffer, Pinned)) == Total(tok, Filter(b, Pinned))
  {
    var pinned := Filter(b, Pinned);
    PinnedSorted(tok, pinned + kept, ByIndex(b));
    FilterAppend(pinned, kept, Pinned);
    FilterMembers(b, Pinned);
    FilterAll(pinned, Pinned);
    FilterNone(kept, Pinned);
    assert pinned + [] == pinned;
    hide Filter;
    hide Total;
  }

  lemma {:induction false} IndexBounds(b: seq<Message>, m: Message)
    ensures -1 <= IndexIn(b, m) < |b|
  {
    if b != [] && Latest(b) != m {
      IndexBounds(b[..|b| - 1], m);
    }
  }

  /** A kept latest message comes last again. */
  lemma AssembleLast(b: seq<Message>, kept: seq<Message>)
    requires b != [] && Latest(b) in Assemble(b, kept).buffer
    ensures Latest(Assemble(b, kept).buffer) == Latest(b)
  {
    var le := ByIndex(b);
    var s := Assemble(b, kept).buffer;
    SortSorted(Filter(b, Pinned) + kept, le);
    var i :| 0 <= i < |s| && s[i] == Latest(b);
    assert i < |s| - 1 ==> le(s[i], s[|s| - 1]);
    IndexBounds(b[..|b| - 1], Latest(s));
    assert IndexIn(b, Latest(b)) == |b| - 1;
    assert IndexIn(b, s[i]) <= IndexIn(b, Latest(s));
  }

  /** What both strategies leave alone: the pinned tokens, and a kept latest message. */
  lemma TruncateKeeps(t: Counter, e: Effective, b: seq<Message>)
    requires Tokenizer(t.tok) && AllValid(b) && b != []
    requires 0.0 <= Room(t.tok, b, ResolveInputBudget(t.windowOf, e))
    ensures var r := Truncate(t, e, b).buffer;
      && Total(t.tok, Filter(r, Pinned)) == Total(t.tok, Filter(b, Pinned))
      && (Latest(b) in r ==> Latest(r) == Latest(b))
  {
    hide Filter;
    hide Total;
    hide Assemble;
    hide Newest;
    hide Tail;
    hide Greedy;
    hide LastN;
    hide Room;
    hide AllValid;
    hide Tokenizer;
    hide ResolveInputBudget;
    var room := Room(t.tok, b, ResolveInputBudget(t.windowOf, e));
    var ev := Filter(b, Evictable);
    FilterMembers(b, Evictable);
    FilterValid(b, Evictable);
    var k := Greedy(t.tok, ev, room);
    var n := ResolveN(e.n);
    LastNIsMin(t.tok, ev, room, n);
    NewestMembers(ev, k);
    forall j: nat | j <= |ev|
      ensures forall m :: m in Tail(ev, j) ==> Evictable(m)
    {
      TailFromList(ev, j);
    }
    assert k <= |ev|;
    AssemblePinned(t.tok, b, Newest(ev, k));
    var j := if n < k then n else k;
    AssemblePinned(t.tok, b, Tail(ev, j));
    if Latest(b) in Assemble(b, Newest(ev, k)).buffer {
      AssembleLast(b, Newest(ev, k));
    }
    if Latest(b) in Assemble(b, Tail(ev, j)).buffer {
      AssembleLast(b, Tail(ev, j));
    }
  }

  lemma TailFromList(s: seq<Message>, k: nat)
    ensures forall m :: m in Tail(s, k) ==> m in s
  {
  }

  /** The result of refitting `r`: the same buffer, nothing evicted. */
  function Untouched(r: FitResult): FitResult { FitResult(r.buffer, r.status.(truncated := false, evicted := 0)) }

  lemma FitWhole(t: Counter, b: seq<Message>, c: Config)
    requires Tokenizer(t.tok) && Accepts(t, b, c) && Filter(b, Valid) == b
    requires Total(t.tok, b) <= InputBudget(t, c) as real
    ensures Fit(t, b, c) == Report(t, ResolveConfig(c), InputBudget(t, c), b, 0)
  {
    SameBudget(t, c);
    hide Filter;
    hide Total;
    hide Count;
    hide Valid;
    hide Classify;
    hide InputBudget;
    hide ResolveInputBudget;
    hide ResolveConfig;
  }

  lemma AcceptedReport(t: Counter, b: seq<Message>, c: Config)
    requires Tokenizer(t.tok) && Accepts(t, b, c)
    ensures var r := Fit(t, b, c);
      r == Report(t, ResolveConfig(c), InputBudget(t, c), r.buffer, r.status.evicted)
  {
    hide Filter;
    hide Total;
    hide Count;
    hide Valid;
    hide Classify;
    hide InputBudget;
    hide Truncate;
    hide ResolveConfig;
  }

  /** Refitting an accepted result changes nothing unless it is rejected, and it is rejected
      exactly when its pinned tokens and its last message together exceed the budget. */
  lemma RefitExact(t: Counter, b: seq<Message>, c: Config)
    requires Tokenizer(t.tok) && Accepts(t, b, c)
    ensures var r := Fit(t, b, c);
      && (Fit(t, r.buffer, c) == Untouched(r) <==> Accepts(t, r.buffer, c))
      && (Accepts(t, r.buffer, c) <==> r.buffer != [] ==>
            Total(t.tok, Filter(r.buffer, Pinned)) + Count(t.tok, Latest(r.buffer)) <= InputBudget(t, c) as real)
  {
    hide Filter;
    hide Total;
    hide Count;
    hide Valid;
    hide Classify;
    hide InputBudget;
    hide Fit;
    hide ResolveConfig;
    var r := Fit(t, b, c);
    WithinBudget(t, b, c);
    FilterAll(r.buffer, Valid);
    RejectsExactly(t, r.buffer, c);
    AcceptedReport(t, b, c);
    if Accepts(t, r.buffer, c) {
      FitWhole(t, r.buffer, c);
    }
  }

  /** `fit` is a fixed point: under `sliding-window-pinned`, or `keep-last-n` with `n` at least
      one, refitting an accepted result evicts nothing and is not rejected. */
  lemma FixedPoint(t: Counter, b: seq<Message>, c: Config)
    requires Tokenizer(t.tok) && Accepts(t, b, c)
    requires Applied(ResolveConfig(c).strategy) == SLIDING || ResolveN(c.n) > 0
    ensures var r := Fit(t, b, c); Fit(t, r.buffer, c) == Untouched(r)
  {
    hide Filter;
    hide Total;
    hide Count;
    hide Valid;
    hide Classify;
    hide InputBudget;
    hide ResolveInputBudget;
    hide Truncate;
    hide Tokenizer;
    var clean := Filter(b, Valid);
    RefitExact(t, b, c);
    if clean != [] {
      CleanIsValid(b);
      SameBudget(t, c);
      RejectsExactly(t, b, c);
      assert Latest(clean) in clean;
      CountValid(t.tok, Latest(clean));
      LatestKept(t, b, c);
      TruncateKeeps(t, ResolveConfig(c), clean);
    }
  }

  // ------------------------------------------------------------------- a wider window

  lemma TailMembersGrow(s: seq<Message>, j: nat, k: nat)
    requires j <= k <= |s|
    ensures forall m :: m in Tail(s, j) ==> m in Tail(s, k)
  {
    assert Tail(s, j) == Tail(s, k)[k - j..];
  }

  /** Under `sliding-window-pinned` a wider window never turns acceptance into rejection and
      never drops a message that the narrower window retained. */
  lemma WiderWindowKeeps(t: Counter, b: seq<Message>, c: Config, wider: real)
    requires Tokenizer(t.tok) && Accepts(t, b, c) && Applied(ResolveConfig(c).strategy) == SLIDING
    requires c.contextWindow.Num? && 1.0 <= c.contextWindow.r <= wider
    ensures var wide := c.(contextWindow := Num(wider));
      Accepts(t, b, wide) && forall m :: m in Fit(t, b, c).buffer ==> m in Fit(t, b, wide).buffer
  {
    hide Filter;
    hide Total;
    hide Count;
    hide Valid;
    hide Classify;
    hide ResolveInputBudget;
    hide InputBudget;
    hide Truncate;
    hide Greedy;
    hide Tail;
    var clean, wide := Filter(b, Valid), c.(contextWindow := Num(wider));
    var e, f := ResolveConfig(c), ResolveConfig(wide);
    CleanIsValid(b);
    SameBudget(t, c);
    SameBudget(t, wide);
    BudgetMonotone(t.windowOf, c, wider);
    RejectsExactly(t, b, c);
    RejectsExactly(t, b, wide);
    if clean != [] {
      assert Latest(clean) in clean;
      CountValid(t.tok, Latest(clean));
      WiderTruncation(t, e, f, clean);
    }
  }

  lemma WiderTruncation(t: Counter, e: Effective, f: Effective, clean: seq<Message>)
    requires Tokenizer(t.tok) && AllValid(clean) && Applied(e.strategy) == Applied(f.strategy) == SLIDING
    requires ResolveInputBudget(t.windowOf, e) <= ResolveInputBudget(t.windowOf, f)
    requires 0.0 <= Room(t.tok, clean, ResolveInputBudget(t.windowOf, e))
    ensures forall m :: m in Truncate(t, e, clean).buffer ==> m in Truncate(t, f, clean).buffer
  {
    hide Filter;
    hide Total;
    hide Greedy;
    hide Tail;
    hide Truncate;
    hide ResolveInputBudget;
    var ev := Filter(clean, Evictable);
    var room := Room(t.tok, clean, ResolveInputBudget(t.windowOf, e));
    var more := Room(t.tok, clean, ResolveInputBudget(t.windowOf, f));
    FilterValid(clean, Evictable);
    TruncateMembers(t, e, clean);
    KeptMembers(t, e, clean);
    KeptMembers(t, f, clean);
    GreedyMonotone(t.tok, ev, room, more);
    TailMembersGrow(ev, Greedy(t.tok, ev, room), Greedy(t.tok, ev, more));
  }

  // ------------------------------------------------------------------- rejections

  /** Keeping the pinned messages and the last `k` evictable ones would keep the latest message
      and stay within budget. */
  ghost predicate Possible(t: Counter, clean: seq<Message>, budget: int, k: nat)
    requires clean != []
  {
    k <= |Filter(clean, Evictable)| && Latest(clean) in Retain(clean, k) && Total(t.tok, Retain(clean, k)) <= budget as real
  }

  lemma {:induction false} RetainTotal(tok: string -> real, b: seq<Message>, k: nat)
    requires k <= |Filter(b, Evictable)|
    ensures Total(tok, Retain(b, k)) == Total(tok, Filter(b, Pinned)) + Total(tok, Tail(Filter(b, Evictable), k))
  {
    hide Filter;
    hide Tail;
    hide Count;
    if b == [] {
      FilterEmpty(Pinned);
      FilterEmpty(Evictable);
      assert Tail([], k) == [] by { TailSnoc([], NotObject(0), 0); }
    } else {
      hide Retain;
      hide Total;
      var init, last := b[..|b| - 1], b[|b| - 1];
      var j := if Pinned(last) then k else if k > 0 then k - 1 else 0;
      FilterSnoc(b, Pinned);
      FilterSnoc(b, Evictable);
      RetainSnoc(b, k);
      RetainTotal(tok, init, j);
      TailSnoc(Filter(init, Evictable), last, k);
      TailSnoc(Filter(b, Evictable), last, 0);
      TotalSnoc(tok, Retain(init, j), last);
      TotalSnoc(tok, Filter(init, Pinned), last);
      TotalSnoc(tok, Tail(Filter(init, Evictable), j), last);
    }
  }

  lemma LatestRetained(b: seq<Message>, k: nat)
    requires b != [] && Distinct(b)
    ensures Latest(b) in Retain(b, k) <==> Pinned(Latest(b)) || k > 0
  {
    RetainSnoc(b, k);
    RetainOrdered(b, |b| - 1, 0);
    IndexInExact(b, |b| - 1);
    var init := b[..|b| - 1];
    if !Pinned(Latest(b)) && k == 0 {
      RetainOrdered(b, |b| - 1, 0);
      assert forall m :: m in Retain(init, 0) ==> IndexIn(b, m) < |b| - 1;
    }
    hide Retain;
    hide IndexIn;
  }

  /** When is a rejection warranted? In a buffer of distinct objects `fit` rejects exactly when
      no admissible choice fits, or when the latest message is itself pinned and only counting
      it a second time exceeds the budget. */
  lemma RejectionWarranted(t: Counter, b: seq<Message>, c: Config)
    requires Tokenizer(t.tok) && Distinct(b) && Filter(b, Valid) != []
    ensures var clean, budget := Filter(b, Valid), InputBudget(t, c);
      var pinned := Total(t.tok, Filter(clean, Pinned));
      var twice := Pinned(Latest(clean)) && pinned <= budget as real < pinned + Count(t.tok, Latest(clean));
      && (!Accepts(t, b, c) <==> twice || forall k: nat :: !Possible(t, clean, budget, k))
      && (twice ==> Possible(t, clean, budget, 0))
  {
    hide Filter;
    hide Total;
    hide Count;
    hide Valid;
    hide InputBudget;
    hide Tail;
    hide Retain;
    var clean, budget := Filter(b, Valid), InputBudget(t, c);
    var ev, latest := Filter(clean, Evictable), Latest(clean);
    CleanIsValid(b);
    FilterDistinct(b, Valid);
    RejectsExactly(t, b, c);
    assert latest in clean;
    CountValid(t.tok, latest);
    FilterValid(clean, Evictable);
    forall k: nat | k <= |ev|
      ensures Possible(t, clean, budget, k) <==>
        (Pinned(latest) || k > 0) && Total(t.tok, Filter(clean, Pinned)) + Total(t.tok, Tail(ev, k)) <= budget as real
      ensures 0.0 <= Total(t.tok, Tail(ev, k))
    {
      RetainTotal(t.tok, clean, k);
      LatestRetained(clean, k);
      TailNonNegative(t.tok, ev, k);
    }
    TailEmpty(t.tok, ev);
    if !Pinned(latest) {
      LastEvictable(clean);
      forall k: nat | 0 < k <= |ev|
        ensures Total(t.tok, Tail(ev, k)) >= Count(t.tok, latest)
      {
        TailNewest(t.tok, ev, k);
      }
      TailNewest(t.tok, ev, 1);
      assert Possible(t, clean, budget, 1) <==> Total(t.tok, Filter(clean, Pinned)) + Count(t.tok, latest) <= budget as real;
    } else {
      assert Possible(t, clean, budget, 0) <==> Total(t.tok, Filter(clean, Pinned)) <= budget as real;
    }
  }

  lemma TailNonNegative(tok: string -> real, s: seq<Message>, k: nat)
    requires Tokenizer(tok) && AllValid(s)
    ensures 0.0 <= Total(tok, Tail(s, k))
  {
    TotalNonNegative(tok, Tail(s, k));
  }

  lemma TailNewest(tok: string -> real, s: seq<Message>, k: nat)
    requires Tokenizer(tok) && AllValid(s) && 0 < k <= |s|
    ensures Total(tok, Tail(s, k)) >= Count(tok, Latest(s))
    ensures Total(tok, Tail(s, 1)) == Count(tok, Latest(s))
  {
    TailStep(tok, s, k);
    TailStep(tok, s, 1);
    TailNonNegative(tok, s[..|s| - 1], k - 1);
    TailEmpty(tok, s[..|s| - 1]);
  }

  /** A budget of ten tokens, and messages of a given size. */
  function Ten(): Config { Config("", Num(10.0), Num(0.0), None, Absent, Absent, Absent) }

  function Zero(): Counter { Counter((s: string) => 0.0, (s: string) => 1.0) }

  function Sized(ref: nat, tokens: real, pinned: bool): Message {
    Message(ref, "user", Some(""), false, pinned, Absent, Num(tokens))
  }

  lemma TenTokens()
    ensures InputBudget(Zero(), Ten()) == 10 && ResolveInputBudget(Zero().windowOf, ResolveConfig(Ten())) == 10
    ensures ResolveConfig(Ten()).criticalAt == 0.95
  {
    assert 10.0.Floor == 10 && 1.0.Floor == 1 && 0.0.Floor == 0 && (10 as real).Floor == 10 && (0 as real).Floor == 0;
    SameBudget(Zero(), Ten());
  }

  lemma OneMessage(t: Counter, m: Message)
    requires Valid(m)
    ensures Filter([m], Valid) == [m] && Total(t.tok, [m]) == Count(t.tok, m)
    ensures Filter([m], Pinned) == (if Pinned(m) then [m] else []) && Total(t.tok, []) == 0.0
  {
    FilterOne(m, Valid);
    FilterOne(m, Pinned);
    assert [m][..0] == [];
  }

  /** The double count happens: a single pinned message of six tokens fits a budget of ten, and is
      rejected. */
  lemma CountedTwice()
    ensures var b := [Sized(0, 6.0, true)];
      !Accepts(Zero(), b, Ten()) && Possible(Zero(), b, InputBudget(Zero(), Ten()), 0)
  {
    var m := Sized(0, 6.0, true);
    TenTokens();
    OneMessage(Zero(), m);
    RejectsExactly(Zero(), [m], Ten());
    RetainSnoc([m], 0);
    assert [m][..0] == [] && Retain([], 0) == [] && [] + [m] == [m];
    FilterOne(m, Evictable);
    hide Filter;
    hide Total;
  }

  /** Every entry of the input is in the result or counted as evicted, except that a rejection
      for pinned messages drops the evictable ones without counting them. */
  lemma EvictionsCounted(t: Counter, b: seq<Message>, c: Config)
    requires Tokenizer(t.tok) && Distinct(b)
    ensures var r, clean := Fit(t, b, c), Filter(b, Valid);
      |b| == |r.buffer| + r.status.evicted + if r.status.reason == Some(PINNED_EXCEEDS) then |Filter(clean, Evictable)| else 0
  {
    hide Filter;
    hide Total;
    hide Count;
    hide Valid;
    hide InputBudget;
    hide Classify;
    hide Truncate;
    var clean := Filter(b, Valid);
    CleanIsValid(b);
    FilterDistinct(b, Valid);
    SameBudget(t, c);
    RejectsExactly(t, b, c);
    if clean != [] {
      assert Latest(clean) in clean;
      CountValid(t.tok, Latest(clean));
      PinnedAndEvictable(clean);
      if 0.0 <= Room(t.tok, clean, InputBudget(t, c)) {
        TruncatePartitions(t, ResolveConfig(c), clean);
      }
    }
  }

  lemma PinnedAndEvictable(b: seq<Message>)
    ensures |Filter(b, Pinned)| + |Filter(b, Evictable)| == |b|
  {
    FilterPartition(b);
    assert |multiset(Filter(b, Pinned)) + multiset(Filter(b, Evictable))| == |multiset(b)|;
  }

  lemma TruncatePartitions(t: Counter, e: Effective, b: seq<Message>)
    requires Tokenizer(t.tok) && AllValid(b) && Distinct(b)
    requires 0.0 <= Room(t.tok, b, ResolveInputBudget(t.windowOf, e))
    ensures var r := Truncate(t, e, b); |r.buffer| + |r.evicted| == |b|
  {
    hide Filter;
    hide Total;
    hide Greedy;
    hide Dropped;
    hide Retain;
    hide ResolveInputBudget;
    KeptMembers(t, e, b);
    if OverBudget(t, e, b) {
      OneSpecification(t.tok, b, ResolveInputBudget(t.windowOf, e), ResolveN(e.n));
      RetainPartitions(b, KeptCount(t, e, b));
      hide Sliding;
      hide KeepLast;
    }
  }
}
