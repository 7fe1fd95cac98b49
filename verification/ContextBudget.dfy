/** Messages, token counts and the input budget of the context manager (context/budget.ts,
    context/token_counter.ts, context/strategies/types.ts). Token counts are exact numbers. */
module ContextBudget {
  import opened Sequences

  /** A field read from a loosely typed object: absent, unusable, or a finite number. */
  datatype Field = Absent | Junk | Num(r: real)

  /** `ref` is the identity of the object: two messages are the same object iff equal. */
  datatype Message =
    | NotObject(ref: nat)
    | Message(ref: nat, role: string, content: Option<string>, badMetadata: bool, pinned: bool,
              priority: Field, cachedCount: Field)

  predicate Pinned(m: Message) { m.Message? && m.pinned }

  predicate Evictable(m: Message) { !Pinned(m) }

  predicate IsInteger(r: real) { r == r.Floor as real }

  /** The structural check of `fit`: role, content, metadata, priority and cached count. */
  predicate Valid(m: Message) {
    && m.Message?
    && m.role in ["system", "user", "assistant", "tool"]
    && m.content.Some?
    && !m.badMetadata
    && !m.priority.Junk? && (m.priority.Num? ==> IsInteger(m.priority.r) && 0.0 <= m.priority.r <= 100.0)
    && !m.cachedCount.Junk? && (m.cachedCount.Num? ==> 0.0 <= m.cachedCount.r)
  }

  /** `countMessage`: the cached count when there is one, else the tokenizer on the content. */
  function Count(tok: string -> real, m: Message): real {
    if m.Message? && m.cachedCount.Num? then m.cachedCount.r
    else if m.Message? && m.content.Some? then tok(m.content.value)
    else tok("")
  }

  function Total(tok: string -> real, b: seq<Message>): real {
    if b == [] then 0.0 else Total(tok, b[..|b| - 1]) + Count(tok, b[|b| - 1])
  }

  /** A tokenizer never returns a negative count. */
  ghost predicate Tokenizer(tok: string -> real) { forall s :: 0.0 <= tok(s) }

  ghost predicate AllValid(b: seq<Message>) { forall m :: m in b ==> Valid(m) }

  lemma {:induction false} TotalConcat(tok: string -> real, a: seq<Message>, b: seq<Message>)
    ensures Total(tok, a + b) == Total(tok, a) + Total(tok, b)
  {
    if b == [] {
      assert a + b == a;
    } else {
      assert (a + b)[..|a + b| - 1] == a + b[..|b| - 1];
      TotalConcat(tok, a, b[..|b| - 1]);
    }
  }

  lemma TotalSnoc(tok: string -> real, s: seq<Message>, m: Message)
    ensures Total(tok, s + [m]) == Total(tok, s) + Count(tok, m)
  {
    assert (s + [m])[..|s|] == s;
  }

  /** Valid messages count for at least nothing, cached or not. */
  lemma {:induction false} TotalNonNegative(tok: string -> real, b: seq<Message>)
    requires Tokenizer(tok) && AllValid(b)
    ensures 0.0 <= Total(tok, b)
  {
    if b != [] {
      TotalNonNegative(tok, b[..|b| - 1]);
      assert b[|b| - 1] in b;
    }
  }

  lemma TotalTail(tok: string -> real, b: seq<Message>, k: nat)
    requires Tokenizer(tok) && AllValid(b) && k <= |b|
    ensures Total(tok, b[k..]) <= Total(tok, b)
  {
    assert forall m :: m in b[..k] ==> m in b;
    hide Total;
    hide Valid;
    hide Tokenizer;
    TotalNonNegative(tok, b[..k]);
    TotalConcat(tok, b[..k], b[k..]);
    assert b[..k] + b[k..] == b;
  }

  lemma {:induction false} TotalInsert(tok: string -> real, x: Message, s: seq<Message>, le: (Message, Message) -> bool)
    ensures Total(tok, Insert(x, s, le)) == Count(tok, x) + Total(tok, s)
  {
    assert Total(tok, [x]) == Count(tok, x) by { assert [x][..0] == []; }
    if s == [] || le(x, s[0]) {
      TotalConcat(tok, [x], s);
      assert [x] + s == Insert(x, s, le);
    } else {
      TotalInsert(tok, x, s[1..], le);
      TotalConcat(tok, [s[0]], Insert(x, s[1..], le));
      TotalConcat(tok, [s[0]], s[1..]);
      assert [s[0]] + s[1..] == s;
    }
  }

  lemma {:induction false} TotalSorted(tok: string -> real, s: seq<Message>, le: (Message, Message) -> bool)
    ensures Total(tok, StableSort(s, le)) == Total(tok, s)
  {
    if s != [] {
      TotalSorted(tok, s[1..], le);
      TotalInsert(tok, s[0], StableSort(s[1..], le), le);
      TotalConcat(tok, [s[0]], s[1..]);
      assert [s[0]][..0] == [];
      assert [s[0]] + s[1..] == s;
    }
  }

  // ------------------------------------------------------------------- configuration

  datatype Config = Config(profile: string, contextWindow: Field, reservedOutput: Field, strategy: Option<string>,
                           n: Field, warningAt: Field, criticalAt: Field)

  const SLIDING := "sliding-window-pinned"
  const KEEP_LAST := "keep-last-n"
  const GENERIC := "generic-heuristic"

  datatype Effective = Effective(profile: string, contextWindow: Option<int>, reservedOutput: int, strategy: string,
                                 n: Field, warningAt: real, criticalAt: real)

  function Threshold(f: Field, fallback: real): real {
    if f.Num? && 0.0 <= f.r <= 1.0 then f.r else fallback
  }

  function ResolveConfig(c: Config): Effective {
    Effective(
      if c.profile != "" then c.profile else GENERIC,
      if c.contextWindow.Num? && 1.0 <= c.contextWindow.r then Some(c.contextWindow.r.Floor) else None,
      if c.reservedOutput.Num? && 0.0 <= c.reservedOutput.r then c.reservedOutput.r.Floor else 1024,
      if c.strategy.Some? then c.strategy.value else SLIDING,
      c.n,
      Threshold(c.warningAt, 0.8),
      Threshold(c.criticalAt, 0.95))
  }

  /** A resolved configuration passed where a partial one is expected. */
  function AsConfig(e: Effective): Config {
    Config(e.profile, if e.contextWindow.Some? then Num(e.contextWindow.value as real) else Absent,
      Num(e.reservedOutput as real), Some(e.strategy), e.n, Num(e.warningAt), Num(e.criticalAt))
  }

  function Max(a: int, b: int): int { if a < b then b else a }

  datatype Budget = Budget(contextWindow: int, reservedOutput: int, inputBudget: int)

  /** Budget arithmetic of a profile, whose window comes from the profile table. */
  function ProfileBudget(windowOf: string -> real, profile: string, reserved: int): Budget {
    var window := Max(1, windowOf(profile).Floor);
    Budget(window, Max(0, reserved), Max(0, window - Max(0, reserved)))
  }

  /** The budget `fit` reports; it resolves its configuration again. */
  function CalcBudget(windowOf: string -> real, c: Config): Budget {
    var e := ResolveConfig(c);
    var derived := ProfileBudget(windowOf, e.profile, e.reservedOutput);
    var window := if e.contextWindow.Some? then e.contextWindow.value else derived.contextWindow;
    Budget(Max(1, window), derived.reservedOutput, Max(0, Max(1, window) - derived.reservedOutput))
  }

  /** The budget a strategy works with, computed on its own. */
  function ResolveInputBudget(windowOf: string -> real, e: Effective): int {
    var derived := ProfileBudget(windowOf, e.profile, e.reservedOutput);
    if e.contextWindow.Some? && 1 <= e.contextWindow.value then Max(0, e.contextWindow.value - derived.reservedOutput)
    else derived.inputBudget
  }

  /** `n` is the whole part of `x`. */
  ghost predicate WholePart(n: int, x: real) { n as real <= x < n as real + 1.0 }

  /** The reported budget: the window is the configured one if it is at least 1, else that of the
      profile, and never less than 1; 1024 tokens are reserved for the output unless a number that
      is not negative says otherwise; the input has the rest, if any. */
  lemma BudgetExactly(windowOf: string -> real, c: Config)
    ensures var b, given := CalcBudget(windowOf, c), c.contextWindow;
      var ofProfile := windowOf(if c.profile == "" then "generic-heuristic" else c.profile);
      && (given.Num? && given.r >= 1.0 ==> WholePart(b.contextWindow, given.r))
      && (!given.Num? || given.r < 1.0 ==>
            if ofProfile >= 1.0 then WholePart(b.contextWindow, ofProfile) else b.contextWindow == 1)
      && (if c.reservedOutput.Num? && c.reservedOutput.r >= 0.0 then WholePart(b.reservedOutput, c.reservedOutput.r)
          else b.reservedOutput == 1024)
      && b.inputBudget == if b.contextWindow > b.reservedOutput then b.contextWindow - b.reservedOutput else 0
  {
  }

  /** A warning threshold is taken when it is a share from 0 to 1, and is 80 percent otherwise; the
      critical one likewise, with 95 percent. */
  lemma ThresholdsExactly(c: Config)
    ensures var e := ResolveConfig(c);
      && e.warningAt == (if c.warningAt.Num? && 0.0 <= c.warningAt.r <= 1.0 then c.warningAt.r else 0.8)
      && e.criticalAt == (if c.criticalAt.Num? && 0.0 <= c.criticalAt.r <= 1.0 then c.criticalAt.r else 0.95)
      && e.strategy == (if c.strategy.Some? then c.strategy.value else "sliding-window-pinned") && e.n == c.n
  {
  }

  /** The two computations agree on every resolved configuration. */
  lemma BudgetsAgree(windowOf: string -> real, c: Config)
    ensures ResolveConfig(AsConfig(ResolveConfig(c))) == ResolveConfig(c)
    ensures CalcBudget(windowOf, AsConfig(ResolveConfig(c))).inputBudget == ResolveInputBudget(windowOf, ResolveConfig(c))
    ensures 0 <= ResolveInputBudget(windowOf, ResolveConfig(c))
  {
    var e := ResolveConfig(c);
    assert e.profile != "";
    assert e.contextWindow.Some? ==> (e.contextWindow.value as real).Floor == e.contextWindow.value;
    assert (e.reservedOutput as real).Floor == e.reservedOutput;
  }

  /** A larger window override never shrinks the budget. */
  lemma BudgetMonotone(windowOf: string -> real, c: Config, wider: real)
    requires c.contextWindow.Num? && 1.0 <= c.contextWindow.r <= wider
    ensures ResolveInputBudget(windowOf, ResolveConfig(c)) <=
            ResolveInputBudget(windowOf, ResolveConfig(c.(contextWindow := Num(wider))))
  {
    assert c.contextWindow.r.Floor <= wider.Floor;
  }

  // ------------------------------------------------------------------- the warning signal

  datatype Warning = Nothing | Approaching | Exceeded

  /** `utilization >= threshold`, where the utilization of an empty budget is 0 or infinite. */
  predicate UsesAtLeast(total: real, budget: int, threshold: real) {
    if budget > 0 then total >= threshold * budget as real else total > 0.0 || 0.0 >= threshold
  }

  function Classify(total: real, budget: int, e: Effective, checkBudget: bool): Warning {
    if UsesAtLeast(total, budget, e.criticalAt) || (checkBudget && total > budget as real) then Exceeded
    else if UsesAtLeast(total, budget, e.warningAt) then Approaching
    else Nothing
  }

  /** The warning: critical from the critical share of the budget on, approaching from the warning
      share on, none below; `fit` also calls a total over the budget critical. Without a budget any
      token is critical, and no tokens are judged by the shares alone. */
  lemma ClassifyExactly(total: real, budget: int, e: Effective, checkBudget: bool)
    requires 0 <= budget
    ensures var w := Classify(total, budget, e, checkBudget);
      && (0 < budget ==>
            && (w.Exceeded? <==> total >= e.criticalAt * budget as real || (checkBudget && total > budget as real))
            && (w.Nothing? <==> !w.Exceeded? && total < e.warningAt * budget as real))
      && (budget == 0 ==>
            && (w.Exceeded? <==> total > 0.0 || e.criticalAt <= 0.0)
            && (w.Nothing? <==> !w.Exceeded? && total <= 0.0 && e.warningAt > 0.0))
  {
  }
}
