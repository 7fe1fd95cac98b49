/** The tier ladder: the decision in its two implementations (mergeready/ledger/policy.ts and
    mergeready/sidecar/cost_routes.py), and the sidecar's downgrade log. */
module TierLadder {
  import opened Sequences
  import opened Text

  datatype Role = Planner | Drafter | Redrafter

  datatype Tier = Ultra | Super | Nano

  function Rank(t: Tier): nat {
    match t
    case Ultra => 2
    case Super => 1
    case Nano => 0
  }

  /** An argument of the decision: a finite number, an infinity or NaN, or no number at all. */
  datatype Spend = Finite(usd: real) | NotFinite | NotNumber

  datatype Decision = Decision(tier: Tier, hardStop: bool, reason: Option<string>)

  const INVALID := Decision(Nano, false, Some("invalid spend input"))
  const EXHAUSTED := "window budget exhausted: windowUsd >= MERGEREADY_BUDGET_USD"
  const NEARLY := "run>=90% of MERGEREADY_RUN_BUDGET_USD or window>=90% of MERGEREADY_BUDGET_USD"
  const WARM := "run>=60% of MERGEREADY_RUN_BUDGET_USD or window>=70% of MERGEREADY_BUDGET_USD"

  /** `decideTier` of the orchestrator; the current tier is not looked at. */
  function DecideTier(role: Role, run: Spend, window: Spend, runBudget: Spend, windowBudget: Spend): Decision {
    if run.NotNumber? || window.NotNumber? || runBudget.NotNumber? || windowBudget.NotNumber?
       || !run.Finite? || !window.Finite? || !runBudget.Finite? || !windowBudget.Finite? then INVALID
    else if role.Drafter? then Decision(Nano, false, None)
    else if window.usd >= windowBudget.usd then Decision(Nano, true, Some(EXHAUSTED))
    else if run.usd >= 0.9 * runBudget.usd || window.usd >= 0.9 * windowBudget.usd then Decision(Nano, false, Some(NEARLY))
    else if run.usd >= 0.6 * runBudget.usd || window.usd >= 0.7 * windowBudget.usd then Decision(Super, false, Some(WARM))
    else Decision(Ultra, false, None)
  }

  /** `decide_tier` of the sidecar, which tests its four numbers in a loop: it decides exactly as
      the orchestrator does, on every input. */
  method DecideTierInSidecar(role: Role, run: Spend, window: Spend, runBudget: Spend, windowBudget: Spend)
    returns (d: Decision)
    ensures d == DecideTier(role, run, window, runBudget, windowBudget)
  {
    var values := [run, window, runBudget, windowBudget];
    for i := 0 to |values|
      invariant forall j :: 0 <= j < i ==> values[j].Finite?
    {
      if values[i].NotNumber? || values[i].NotFinite? {
        assert values[0] == run && values[1] == window && values[2] == runBudget && values[3] == windowBudget;
        return INVALID;
      }
    }
    assert values[0].Finite? && values[1].Finite? && values[2].Finite? && values[3].Finite?;
    if role == Drafter {
      return Decision(Nano, false, None);
    }
    if window.usd >= windowBudget.usd {
      return Decision(Nano, true, Some(EXHAUSTED));
    }
    if run.usd >= 0.9 * runBudget.usd || window.usd >= 0.9 * windowBudget.usd {
      return Decision(Nano, false, Some(NEARLY));
    }
    if run.usd >= 0.6 * runBudget.usd || window.usd >= 0.7 * windowBudget.usd {
      return Decision(Super, false, Some(WARM));
    }
    d := Decision(Ultra, false, None);
  }

  /** More spend never raises the tier and never lifts the hard stop. */
  lemma DecisionMonotone(role: Role, run: real, window: real, more: real, later: real, runBudget: Spend, windowBudget: Spend)
    requires run <= more && window <= later
    ensures var before := DecideTier(role, Finite(run), Finite(window), runBudget, windowBudget);
      var after := DecideTier(role, Finite(more), Finite(later), runBudget, windowBudget);
      Rank(after.tier) <= Rank(before.tier) && (before.hardStop ==> after.hardStop)
  {
  }

  /** Which share of which budget decides. With positive budgets: the top tier below 60 percent of
      the run budget and 70 percent of the window budget, the lowest from 90 percent of either on,
      the middle one between; the drafter always has the lowest. The hard stop is the exhausted
      window, for anyone but the drafter. An argument that is no finite number gives the lowest
      tier without a stop. */
  lemma DecideExactly(role: Role, run: real, window: real, runBudget: real, windowBudget: real)
    requires 0.0 < runBudget && 0.0 < windowBudget
    ensures var d := DecideTier(role, Finite(run), Finite(window), Finite(runBudget), Finite(windowBudget));
      && (role.Drafter? ==> d.tier.Nano? && !d.hardStop && d.reason.None?)
      && (!role.Drafter? ==>
            && (d.tier.Ultra? <==> run < 0.6 * runBudget && window < 0.7 * windowBudget)
            && (d.tier.Nano? <==> run >= 0.9 * runBudget || window >= 0.9 * windowBudget)
            && (d.hardStop <==> window >= windowBudget)
            && d.reason == if d.hardStop then Some("window budget exhausted: windowUsd >= MERGEREADY_BUDGET_USD")
                           else match d.tier
                                case Ultra => None
                                case Super => Some("run>=60% of MERGEREADY_RUN_BUDGET_USD or window>=70% of MERGEREADY_BUDGET_USD")
                                case Nano => Some("run>=90% of MERGEREADY_RUN_BUDGET_USD or window>=90% of MERGEREADY_BUDGET_USD"))
  {
  }

  lemma DecideInvalid(role: Role, run: Spend, window: Spend, runBudget: Spend, windowBudget: Spend)
    requires !run.Finite? || !window.Finite? || !runBudget.Finite? || !windowBudget.Finite?
    ensures DecideTier(role, run, window, runBudget, windowBudget) == Decision(Nano, false, Some("invalid spend input"))
  {
  }

  // ------------------------------------------------------------------- the sidecar's state

  datatype Usage = Usage(trace: string, role: Role, tier: Tier, prompt: int, completion: int, sandboxSeconds: real)

  /** Prices: dollars per million tokens by tier, and per sandbox minute. */
  datatype Pricing = Pricing(inputRate: Tier -> real, outputRate: Tier -> real, sandboxPerMinute: real)

  function TierForModel(modelId: string): Tier {
    var text := Lower(modelId);
    if Contains(text, "ultra") then Ultra
    else if Contains(text, "super") then Super
    else Nano
  }

  /** The tier of a model is read off its name, in any case. */
  lemma TierByName(modelId: string)
    ensures TierForModel(modelId).Ultra? <==> Occurs(Lower(modelId), "ultra")
    ensures TierForModel(modelId).Super? <==> !Occurs(Lower(modelId), "ultra") && Occurs(Lower(modelId), "super")
  {
    ContainsExactly(Lower(modelId), "ultra");
    ContainsExactly(Lower(modelId), "super");
    hide Contains;
    hide Occurs;
  }

  function EventUsd(p: Pricing, u: Usage): real {
    u.prompt as real / 1000000.0 * p.inputRate(u.tier) + u.completion as real / 1000000.0 * p.outputRate(u.tier)
      + p.sandboxPerMinute * u.sandboxSeconds / 60.0
  }

  function Usd(p: Pricing, rows: seq<Usage>): real {
    if rows == [] then 0.0 else Usd(p, rows[..|rows| - 1]) + EventUsd(p, rows[|rows| - 1])
  }

  function OfTrace(trace: string): Usage -> bool { (u: Usage) => u.trace == trace }

  datatype Entry = Entry(role: Role, source: Tier, target: Tier, reason: string)

  datatype Ladder = Ladder(rows: seq<Usage>, current: map<(string, Role), Tier>, log: map<string, seq<Entry>>)

  const EMPTY := Ladder([], map[], map[])

  datatype Settings = Settings(pricing: Pricing, runBudget: Spend, windowBudget: Spend)

  /** The built-in defaults of `tier_by_role_default`. */
  function RoleDefault(role: Role): Tier { if role.Drafter? then Nano else Ultra }

  function CurrentTier(l: Ladder, trace: string, role: Role): Tier {
    if (trace, role) in l.current then l.current[(trace, role)] else RoleDefault(role)
  }

  function Decide(s: Settings, l: Ladder, trace: string, role: Role): Decision {
    var run := if trace == "" then 0.0 else Usd(s.pricing, Filter(l.rows, OfTrace(trace)));
    DecideTier(role, Finite(run), Finite(Usd(s.pricing, l.rows)), s.runBudget, s.windowBudget)
  }

  function LogOf(l: Ladder, trace: string): seq<Entry> { if trace in l.log then l.log[trace] else [] }

  datatype Op = Record(trace: string, role: Role, modelId: string, prompt: int, completion: int, sandboxSeconds: real)
              | Policy(trace: string, role: Role)

  predicate Refused(op: Op) { op.trace == "" || (op.Record? && op.modelId == "") }

  function UsageOf(op: Op): Usage
    requires op.Record?
  {
    Usage(op.trace, op.role, TierForModel(op.modelId), op.prompt, op.completion, op.sandboxSeconds)
  }

  function Recorded(l: Ladder, op: Op): Ladder
    requires op.Record?
  {
    if Refused(op) then l else l.(rows := l.rows + [UsageOf(op)])
  }

  function Asked(s: Settings, l: Ladder, trace: string, role: Role): Ladder {
    var current := CurrentTier(l, trace, role);
    var d := Decide(s, l, trace, role);
    var l1 := l.(current := l.current[(trace, role) := d.tier]);
    if d.tier == current || trace == "" then l1
    else l1.(log := l.log[trace := LogOf(l, trace) +
                            [Entry(role, current, d.tier, if d.reason.Some? then d.reason.value else "")]])
  }

  function Apply(s: Settings, l: Ladder, op: Op): Ladder {
    match op
    case Record(_, _, _, _, _, _) => Recorded(l, op)
    case Policy(trace, role) => Asked(s, l, trace, role)
  }

  function After(s: Settings, ops: seq<Op>): Ladder {
    if ops == [] then EMPTY else Apply(s, After(s, ops[..|ops| - 1]), ops[|ops| - 1])
  }

  /** The routes of the cost sidecar: module-level maps beside the shared record store. */
  class CostRoutes {
    const settings: Settings
    var rows: seq<Usage>
    var currentTier: map<(string, Role), Tier>
    var downgradeLog: map<string, seq<Entry>>

    function State(): Ladder
      reads this
    {
      Ladder(rows, currentTier, downgradeLog)
    }

    constructor (s: Settings)
      ensures State() == EMPTY && settings == s
    {
      settings, rows, currentTier, downgradeLog := s, [], map[], map[];
    }

    /** `_do_record`: refused without a trace id or a model id. */
    method DoRecord(op: Op) returns (ok: bool)
      requires op.Record?
      modifies this`rows
      ensures State() == Recorded(old(State()), op) && ok == (op.trace != "" && op.modelId != "")
      ensures !ok ==> rows == old(rows)
      ensures ok ==> exists u: Usage ::
        && rows == old(rows) + [u]
        && u.trace == op.trace && u.role == op.role && u.tier == TierForModel(op.modelId)
        && u.prompt == op.prompt && u.completion == op.completion && u.sandboxSeconds == op.sandboxSeconds
    {
      ok := op.trace != "" && op.modelId != "";
      if ok {
        rows := rows + [UsageOf(op)];
      }
    }

    method SumUsd(trace: Option<string>) returns (usd: real)
      ensures usd == Usd(settings.pricing, if trace.None? then rows else Filter(rows, OfTrace(trace.value)))
    {
      usd := 0.0;
      var kept := if trace.None? then rows else Filter(rows, OfTrace(trace.value));
      for i := 0 to |kept|
        invariant usd == Usd(settings.pricing, kept[..i])
      {
        assert kept[..i + 1][..i] == kept[..i];
        usd := usd + EventUsd(settings.pricing, kept[i]);
      }
      assert kept[..|kept|] == kept;
    }

    /** `_do_policy`. */
    method DoPolicy(trace: string, role: Role) returns (tier: Tier, hardStop: bool)
      modifies this`currentTier, this`downgradeLog
      ensures State() == Asked(settings, old(State()), trace, role)
      ensures var d := Decide(settings, old(State()), trace, role); tier == d.tier && hardStop == d.hardStop
    {
      var runUsd := 0.0;
      if trace != "" {
        runUsd := SumUsd(Some(trace));
      }
      var windowUsd := SumUsd(None);
      var current := if (trace, role) in currentTier then currentTier[(trace, role)] else RoleDefault(role);
      var d := DecideTierInSidecar(role, Finite(runUsd), Finite(windowUsd), settings.runBudget, settings.windowBudget);
      if d.tier != current {
        currentTier := currentTier[(trace, role) := d.tier];
        if trace != "" {
          var entries := if trace in downgradeLog then downgradeLog[trace] else [];
          downgradeLog := downgradeLog[trace := entries +
            [Entry(role, current, d.tier, if d.reason.Some? then d.reason.value else "")]];
        }
      } else {
        currentTier := currentTier[(trace, role) := current];
      }
      tier, hardStop := d.tier, d.hardStop;
    }
  }

  /** What a policy request judges: the spend of its trace against the run budget, nothing when no
      trace is given, and the spend of all traces against the window budget. */
  lemma JudgedSpend(s: Settings, l: Ladder, trace: string, role: Role)
    requires s.runBudget.Finite? && s.windowBudget.Finite? && 0.0 < s.runBudget.usd && 0.0 < s.windowBudget.usd && !role.Drafter?
    ensures var d, all := Decide(s, l, trace, role), Usd(s.pricing, l.rows);
      var own := Usd(s.pricing, Filter(l.rows, (u: Usage) => u.trace == trace));
      && (d.tier.Ultra? <==> (trace != "" ==> own < 0.6 * s.runBudget.usd) && all < 0.7 * s.windowBudget.usd)
      && (d.tier.Nano? <==> (trace != "" && own >= 0.9 * s.runBudget.usd) || all >= 0.9 * s.windowBudget.usd)
      && (d.hardStop <==> all >= s.windowBudget.usd)
  {
    FilterSame(l.rows, OfTrace(trace), (u: Usage) => u.trace == trace);
    var own := if trace == "" then 0.0 else Usd(s.pricing, Filter(l.rows, OfTrace(trace)));
    hide Usd;
    hide Filter;
    DecideExactly(role, own, Usd(s.pricing, l.rows), s.runBudget.usd, s.windowBudget.usd);
    hide DecideTier;
  }

  // ------------------------------------------------------------------- spend only grows

  ghost predicate FairPricing(p: Pricing) {
    0.0 <= p.sandboxPerMinute && forall t :: 0.0 <= p.inputRate(t) && 0.0 <= p.outputRate(t)
  }

  /** A record that is accepted costs no negative amount. */
  ghost predicate Charges(p: Pricing, op: Op) { op.Record? && !Refused(op) ==> 0.0 <= EventUsd(p, UsageOf(op)) }

  lemma ProductNonNegative(x: real, y: real)
    requires 0.0 <= x && 0.0 <= y
    ensures 0.0 <= x * y
  {
  }

  /** Fair prices and counts that take nothing back are enough for that. */
  lemma FairUsageCharges(p: Pricing, op: Op)
    requires FairPricing(p) && (op.Record? ==> op.prompt >= 0 && op.completion >= 0 && op.sandboxSeconds >= 0.0)
    ensures Charges(p, op)
  {
    if op.Record? {
      var u := UsageOf(op);
      hide TierForModel;
      ProductNonNegative(u.prompt as real / 1000000.0, p.inputRate(u.tier));
      ProductNonNegative(u.completion as real / 1000000.0, p.outputRate(u.tier));
      ProductNonNegative(p.sandboxPerMinute, u.sandboxSeconds);
    }
  }

  /** What a record costs: input tokens at the input rate and output tokens at the output rate of
      its tier, per million, and sandbox seconds at a sixtieth of the minute price. */
  lemma EventUsdParts(p: Pricing, u: Usage)
    ensures u.completion == 0 && u.sandboxSeconds == 0.0 ==> 1000000.0 * EventUsd(p, u) == u.prompt as real * p.inputRate(u.tier)
    ensures u.prompt == 0 && u.sandboxSeconds == 0.0 ==> 1000000.0 * EventUsd(p, u) == u.completion as real * p.outputRate(u.tier)
    ensures u.prompt == 0 && u.completion == 0 ==> 60.0 * EventUsd(p, u) == u.sandboxSeconds * p.sandboxPerMinute
    ensures EventUsd(p, u) == EventUsd(p, u.(completion := 0, sandboxSeconds := 0.0)) +
              EventUsd(p, u.(prompt := 0, sandboxSeconds := 0.0)) + EventUsd(p, u.(prompt := 0, completion := 0))
  {
  }

  lemma UsdSnoc(p: Pricing, rows: seq<Usage>, u: Usage)
    ensures Usd(p, rows + [u]) == Usd(p, rows) + EventUsd(p, u)
  {
    assert (rows + [u])[..|rows|] == rows;
  }

  /** A record that costs no negative amount never raises the tier that would be decided, for
      any trace, role and budgets. */
  lemma RecordLowers(s: Settings, l: Ladder, op: Op, trace: string, role: Role)
    requires op.Record? && Charges(s.pricing, op)
    ensures Rank(Decide(s, Recorded(l, op), trace, role).tier) <= Rank(Decide(s, l, trace, role).tier)
  {
    if !Refused(op) {
      var u := UsageOf(op);
      hide TierForModel;
      UsdSnoc(s.pricing, l.rows, u);
      FilterAppend(l.rows, [u], OfTrace(trace));
      FilterOne(u, OfTrace(trace));
      var mine := Filter(l.rows, OfTrace(trace));
      hide Filter;
      UsdSnoc(s.pricing, mine, u);
      assert mine + [] == mine;
      hide EventUsd;
      var run, more := if trace == "" then 0.0 else Usd(s.pricing, mine),
                       if trace == "" then 0.0 else Usd(s.pricing, Filter(l.rows + [u], OfTrace(trace)));
      DecisionMonotone(role, run, Usd(s.pricing, l.rows), more, Usd(s.pricing, l.rows + [u]), s.runBudget, s.windowBudget);
      hide DecideTier;
    }
  }

  /** Whatever was spent before and whatever the budgets are, recording `op` does not raise the
      tier that would be decided for any trace and role. */
  ghost predicate NeverRaises(p: Pricing, op: Op)
    requires op.Record?
  {
    forall l, trace, role, run: real, window: real :: 0.0 < run && 0.0 < window ==>
      var s := Settings(p, Finite(run), Finite(window));
      Rank(Decide(s, Recorded(l, op), trace, role).tier) <= Rank(Decide(s, l, trace, role).tier)
  }

  /** The same usage taken back. */
  function Opposite(u: Usage): Usage { u.(prompt := -u.prompt, completion := -u.completion, sandboxSeconds := -u.sandboxSeconds) }

  lemma NegatedProduct(x: real, y: real)
    ensures (-x) * y == -(x * y) && x * (-y) == -(x * y)
  {
  }

  lemma OppositeCosts(p: Pricing, u: Usage)
    ensures EventUsd(p, Opposite(u)) == -EventUsd(p, u)
  {
    assert (-u.prompt) as real / 1000000.0 == -(u.prompt as real / 1000000.0);
    assert (-u.completion) as real / 1000000.0 == -(u.completion as real / 1000000.0);
    NegatedProduct(u.prompt as real / 1000000.0, p.inputRate(u.tier));
    NegatedProduct(u.completion as real / 1000000.0, p.outputRate(u.tier));
    NegatedProduct(p.sandboxPerMinute, u.sandboxSeconds);
  }

  lemma UsdOfOneOrTwo(p: Pricing, u: Usage, v: Usage)
    ensures Usd(p, [u]) == EventUsd(p, u) && Usd(p, [u, v]) == EventUsd(p, u) + EventUsd(p, v)
  {
    UsdSnoc(p, [], u);
    UsdSnoc(p, [u], v);
    assert [] + [u] == [u] && [u] + [v] == [u, v];
  }

  lemma DecidedByTotals(s: Settings, l: Ladder, trace: string, usd: real)
    requires trace != "" && (forall u :: u in l.rows ==> u.trace == trace) && Usd(s.pricing, l.rows) == usd
    ensures Decide(s, l, trace, Planner) == DecideTier(Planner, Finite(usd), Finite(usd), s.runBudget, s.windowBudget)
  {
    FilterAll(l.rows, OfTrace(trace));
  }

  /** After the opposite of a record with a negative cost, that record raises the tier. */
  lemma NegativeCostRaises(p: Pricing, op: Op)
    requires op.Record? && !Charges(p, op)
    ensures !NeverRaises(p, op)
  {
    var u := UsageOf(op);
    var v := Opposite(u);
    var cost := -EventUsd(p, u);
    var s := Settings(p, Finite(cost), Finite(10.0 * cost));
    var l := Ladder([v], map[], map[]);
    hide TierForModel;
    OppositeCosts(p, u);
    UsdOfOneOrTwo(p, v, u);
    assert Recorded(l, op).rows == [v, u];
    hide EventUsd;
    hide Usd;
    DecidedByTotals(s, l, op.trace, cost);
    DecidedByTotals(s, Recorded(l, op), op.trace, 0.0);
    hide Decide;
    hide Recorded;
    assert Rank(Decide(s, Recorded(l, op), op.trace, Planner).tier) > Rank(Decide(s, l, op.trace, Planner).tier);
  }

  /** A record never raises the tier that would be decided if and only if it is refused or its
      amount is not negative. */
  lemma LowersExactly(p: Pricing, op: Op)
    requires op.Record?
    ensures NeverRaises(p, op) <==> Charges(p, op)
  {
    hide Charges;
    if Charges(p, op) {
      forall l, trace, role, run: real, window: real | 0.0 < run && 0.0 < window
        ensures var s := Settings(p, Finite(run), Finite(window));
          Rank(Decide(s, Recorded(l, op), trace, role).tier) <= Rank(Decide(s, l, trace, role).tier)
      {
        RecordLowers(Settings(p, Finite(run), Finite(window)), l, op, trace, role);
      }
    } else {
      NegativeCostRaises(p, op);
    }
  }

  // ------------------------------------------------------------------- the downgrade log

  function IsRole(role: Role): Entry -> bool { (e: Entry) => e.role == role }

  /** What the log says about one trace and role. */
  function Entries(l: Ladder, trace: string, role: Role): seq<Entry> { Filter(LogOf(l, trace), IsRole(role)) }

  /** A chain of downgrades from `first` to `last`: each entry starts where the one before ended,
      goes strictly down, and says why. */
  ghost predicate Chain(es: seq<Entry>, first: Tier, last: Tier) {
    && (es == [] ==> last == first)
    && (es != [] ==> es[0].source == first && es[|es| - 1].target == last)
    && (forall i :: 0 <= i < |es| - 1 ==> es[i + 1].source == es[i].target)
    && (forall i :: 0 <= i < |es| ==> Rank(es[i].target) < Rank(es[i].source) && es[i].reason != "")
  }

  lemma ChainGrows(es: seq<Entry>, first: Tier, last: Tier, e: Entry)
    requires Chain(es, first, last) && e.source == last && Rank(e.target) < Rank(e.source) && e.reason != ""
    ensures Chain(es + [e], first, e.target)
  {
  }

  /** The log of one key before and after an operation. */
  lemma AskedLog(s: Settings, l: Ladder, asked: string, who: Role, trace: string, role: Role)
    requires trace != ""
    ensures var l1 := Asked(s, l, asked, who);
      var d := Decide(s, l, asked, who);
      && l1.rows == l.rows
      && ((asked, who) != (trace, role) ==>
            Entries(l1, trace, role) == Entries(l, trace, role) && CurrentTier(l1, trace, role) == CurrentTier(l, trace, role))
      && ((asked, who) == (trace, role) ==>
            && CurrentTier(l1, trace, role) == d.tier
            && Entries(l1, trace, role) == Entries(l, trace, role) +
                 if d.tier == CurrentTier(l, trace, role) then []
                 else [Entry(role, CurrentTier(l, trace, role), d.tier, if d.reason.Some? then d.reason.value else "")])
  {
    hide Decide;
    hide Filter;
    hide RoleDefault;
    var before := LogOf(l, trace);
    var d := Decide(s, l, asked, who);
    var e := Entry(who, CurrentTier(l, asked, who), d.tier, if d.reason.Some? then d.reason.value else "");
    FilterAppend(before, [e], IsRole(role));
    FilterOne(e, IsRole(role));
    assert Filter(before, IsRole(role)) + [] == Filter(before, IsRole(role));
  }

  lemma DecideSays(s: Settings, l: Ladder, trace: string, role: Role)
    ensures var d := Decide(s, l, trace, role);
      (d.tier.Ultra? || role.Drafter? || (d.reason.Some? && d.reason.value != "")) && (role.Drafter? ==> d.tier.Nano?)
  {
  }

  /** The invariant of one key: its log is a chain down to its current tier, and the tier that
      would be decided now is no higher than that. */
  ghost predicate KeyOk(s: Settings, l: Ladder, trace: string, role: Role) {
    && Chain(Entries(l, trace, role), RoleDefault(role), CurrentTier(l, trace, role))
    && Rank(Decide(s, l, trace, role).tier) <= Rank(CurrentTier(l, trace, role))
    && (role.Drafter? ==> CurrentTier(l, trace, role).Nano?)
  }

  lemma KeyStays(s: Settings, l: Ladder, op: Op, trace: string, role: Role)
    requires trace != "" && KeyOk(s, l, trace, role) && Charges(s.pricing, op)
    ensures KeyOk(s, Apply(s, l, op), trace, role)
  {
    hide Chain;
    match op {
      case Record(_, _, _, _, _, _) =>
        RecordLowers(s, l, op, trace, role);
        hide Decide;
      case Policy(asked, who) =>
        AskedLog(s, l, asked, who, trace, role);
        DecideSays(s, l, trace, role);
        assert Decide(s, Asked(s, l, asked, who), trace, role) == Decide(s, l, trace, role);
        hide Decide;
        hide Asked;
        hide Entries;
        hide CurrentTier;
        var d, current := Decide(s, l, trace, role), CurrentTier(l, trace, role);
        if (asked, who) == (trace, role) {
          if d.tier != current {
            ChainGrows(Entries(l, trace, role), RoleDefault(role), current,
              Entry(role, current, d.tier, if d.reason.Some? then d.reason.value else ""));
          } else {
            assert Entries(l, trace, role) + [] == Entries(l, trace, role);
          }
        }
    }
  }

  lemma {:induction false} ChainBound(es: seq<Entry>, first: Tier, last: Tier, i: nat)
    requires Chain(es, first, last) && i < |es|
    ensures Rank(es[i].target) + i + 1 <= Rank(first)
  {
    if i > 0 {
      ChainBound(es, first, last, i - 1);
    }
  }

  /** In every run with fixed budgets, the built-in defaults and records of no negative amount, the
      log of a trace and role is a chain from the role's default to its current tier, strictly
      downwards, with at most two entries, and none at all for the drafter. */
  lemma {:induction false} DowngradeLog(s: Settings, ops: seq<Op>, trace: string, role: Role)
    requires trace != "" && forall op :: op in ops ==> Charges(s.pricing, op)
    ensures var l := After(s, ops); var es := Entries(l, trace, role);
      && KeyOk(s, l, trace, role)
      && |es| <= Rank(RoleDefault(role))
  {
    hide Apply;
    hide Entries;
    hide CurrentTier;
    hide Chain;
    hide Decide;
    hide Charges;
    if ops == [] {
      StartOk(s, trace, role);
    } else {
      assert ops[|ops| - 1] in ops;
      DowngradeLog(s, ops[..|ops| - 1], trace, role);
      KeyStays(s, After(s, ops[..|ops| - 1]), ops[|ops| - 1], trace, role);
    }
    var es := Entries(After(s, ops), trace, role);
    if es != [] {
      ChainBound(es, RoleDefault(role), CurrentTier(After(s, ops), trace, role), |es| - 1);
    }
  }

  lemma StartOk(s: Settings, trace: string, role: Role)
    ensures KeyOk(s, EMPTY, trace, role)
  {
    DecideSays(s, EMPTY, trace, role);
    hide Decide;
  }

  lemma AfterStep(s: Settings, ops: seq<Op>, op: Op)
    ensures After(s, ops + [op]) == Apply(s, After(s, ops), op)
  {
    assert (ops + [op])[..|ops|] == ops;
  }

  function Free(): Pricing { Pricing(_ => 1.0, _ => 1.0, 0.0) }

  lemma MillionTokens(rows: seq<Usage>, n: int)
    ensures Usd(Free(), rows + [Usage("t", Planner, Nano, n * 1000000, 0, 0.0)]) == Usd(Free(), rows) + n as real
  {
    var u := Usage("t", Planner, Nano, n * 1000000, 0, 0.0);
    UsdSnoc(Free(), rows, u);
    assert EventUsd(Free(), u) == n as real;
  }

  lemma FourSteps(s: Settings, a: Op, b: Op, c: Op, d: Op)
    ensures After(s, [a, b, c, d]) == Apply(s, Apply(s, Apply(s, Apply(s, EMPTY, a), b), c), d)
  {
    hide Apply;
    AfterStep(s, [], a);
    AfterStep(s, [a], b);
    AfterStep(s, [a, b], c);
    AfterStep(s, [a, b, c], d);
    assert [] + [a] == [a] && [a] + [b] == [a, b] && [a, b] + [c] == [a, b, c] && [a, b, c] + [d] == [a, b, c, d];
  }

  function Million(n: int): Usage { Usage("t", Planner, Nano, n * 1000000, 0, 0.0) }

  function Tight(): Settings { Settings(Free(), Finite(1.0), Finite(50.0)) }

  /** What is decided after a million tokens, and after they were taken back. */
  lemma Decisions(l: Ladder)
    ensures l.rows == [Million(1)] ==> Decide(Tight(), l, "t", Planner).tier == Nano
    ensures l.rows == [Million(1), Million(-1)] ==> Decide(Tight(), l, "t", Planner).tier == Ultra
  {
    MillionTokens([], 1);
    MillionTokens([Million(1)], -1);
    assert [] + [Million(1)] == [Million(1)] && [Million(1)] + [Million(-1)] == [Million(1), Million(-1)];
    FilterAll([Million(1)], OfTrace("t"));
    FilterAll([Million(1), Million(-1)], OfTrace("t"));
    assert Usd(Free(), []) == 0.0;
    hide Usd;
    hide Filter;
  }

  /** Token counts are not checked for sign. A record with negative tokens can lower the spend,
      and then the next decision goes up again. */
  lemma NegativeUsageClimbs()
    ensures var spend, refund := Record("t", Planner, "m", 1000000, 0, 0.0), Record("t", Planner, "m", -1000000, 0, 0.0);
      var es := Entries(After(Tight(), [spend, Policy("t", Planner), refund, Policy("t", Planner)]), "t", Planner);
      |es| == 2 && es[0].source == Ultra && es[0].target == Nano && es[1].source == Nano && es[1].target == Ultra
  {
    var spend, ask, refund := Record("t", Planner, "m", 1000000, 0, 0.0), Policy("t", Planner), Record("t", Planner, "m", -1000000, 0, 0.0);
    assert TierForModel("m") == Nano;
    FourSteps(Tight(), spend, ask, refund, ask);
    hide After;
    hide TierForModel;
    hide Decide;
    hide Usd;
    hide Filter;
    hide EventUsd;
    var l1 := Recorded(EMPTY, spend);
    var l2 := Asked(Tight(), l1, "t", Planner);
    var l3 := Recorded(l2, refund);
    AskedLog(Tight(), l1, "t", Planner, "t", Planner);
    AskedLog(Tight(), l3, "t", Planner, "t", Planner);
    assert l1.rows == [Million(1)] && l3.rows == [Million(1), Million(-1)];
    Decisions(l1);
    Decisions(l3);
    NothingLogged(l1);
    assert CurrentTier(l3, "t", Planner) == CurrentTier(l2, "t", Planner) && Entries(l3, "t", Planner) == Entries(l2, "t", Planner);
    hide Asked;
    hide Recorded;
    hide Entries;
    hide CurrentTier;
  }

  lemma NothingLogged(l: Ladder)
    requires l.current == map[] && l.log == map[]
    ensures Entries(l, "t", Planner) == [] && CurrentTier(l, "t", Planner) == Ultra
  {
  }
}
