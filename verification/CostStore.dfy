/** The session store of usage records and its budget warnings (cost/store.py), and the wrapper
    that feeds it (cost/meter.py). Costs are exact numbers, before any rounding. */
module CostStores {
  import opened Sequences

  // ------------------------------------------------------------------- totals

  /** `None` stands for a token count or a cost that is missing or not a number. */
  datatype Record = Record(provider: string, input: Option<int>, output: Option<int>, total: Option<int>,
                           requests: int, cost: Option<real>, unmetered: bool)

  datatype Totals = Totals(input: int, output: int, tokens: int, requests: int, cost: Option<real>, unmetered: int)

  const NOTHING := Totals(0, 0, 0, 0, None, 0)

  function Known(x: Option<int>): int { if x.Some? then x.value else 0 }

  function Spent(x: Option<real>): real { if x.Some? then x.value else 0.0 }

  function Add(t: Totals, r: Record): Totals {
    Totals(t.input + Known(r.input), t.output + Known(r.output), t.tokens + Known(r.total), t.requests + r.requests,
           if r.cost.Some? then Some(Spent(t.cost) + r.cost.value) else t.cost,
           t.unmetered + if r.unmetered then 1 else 0)
  }

  function Aggregate(records: seq<Record>): Totals {
    if records == [] then NOTHING else Add(Aggregate(records[..|records| - 1]), records[|records| - 1])
  }

  function SumOf(records: seq<Record>, f: Record -> int): int {
    if records == [] then 0 else SumOf(records[..|records| - 1], f) + f(records[|records| - 1])
  }

  /** Every total is the sum of its own field over the records, missing counts left out; there is a
      cost as soon as one record has one. */
  lemma {:induction false} AggregateExactly(records: seq<Record>)
    ensures var t := Aggregate(records);
      && t.input == SumOf(records, (r: Record) => if r.input.Some? then r.input.value else 0)
      && t.output == SumOf(records, (r: Record) => if r.output.Some? then r.output.value else 0)
      && t.tokens == SumOf(records, (r: Record) => if r.total.Some? then r.total.value else 0)
      && t.requests == SumOf(records, (r: Record) => r.requests)
      && t.unmetered == SumOf(records, (r: Record) => if r.unmetered then 1 else 0)
      && (t.cost.Some? <==> exists i :: 0 <= i < |records| && records[i].cost.Some?)
  {
    if records != [] {
      var init := records[..|records| - 1];
      AggregateExactly(init);
      assert forall i :: 0 <= i < |init| ==> init[i] == records[i];
      if i :| 0 <= i < |records| && records[i].cost.Some? {
        assert i < |init| ==> init[i].cost.Some?;
      }
    }
  }

  const UNATTRIBUTED := "_unattributed"

  function ProviderOf(r: Record): string { if r.provider == "" then UNATTRIBUTED else r.provider }

  function From(p: string): Record -> bool { (r: Record) => ProviderOf(r) == p }

  function Group(records: seq<Record>, p: string): seq<Record> { Filter(records, From(p)) }

  // ------------------------------------------------------------------- budgets and edges

  datatype Unit = Tokens | Requests | EstimatedCost

  datatype Scope = Scope(budget: real, unit: Unit, threshold: Option<real>, critical: Option<real>)

  datatype Level = Warn | Critical

  datatype Key = Key(scope: string, level: Level)

  /** `perProvider` is a dictionary, listed in its insertion order. */
  datatype Config = Config(overall: Option<Scope>, perProvider: seq<(string, Scope)>)

  datatype Warning = Warning(key: Key, fraction: real, budget: real, cumulative: real)

  const GLOBAL := "global"

  function Cumulative(unit: Unit, t: Totals): real {
    match unit
    case Tokens => t.tokens as real
    case Requests => t.requests as real
    case EstimatedCost => Spent(t.cost)
  }

  /** A missing threshold and a threshold of zero both mean 0.8. */
  function Threshold(s: Scope): real { if s.threshold.None? || s.threshold.value == 0.0 then 0.8 else s.threshold.value }

  function Levels(s: Scope): seq<(real, Level)> {
    [(Threshold(s), Warn)] +
    if s.critical.Some? && s.critical.value > Threshold(s) then [(s.critical.value, Critical)] else []
  }

  /** `fired` holds the keys whose warning is active, `pending` the crossings of the last check
      that nobody was told about yet. */
  datatype Edges = Edges(fired: set<Key>, pending: set<Key>)

  /** One level of one scope: a crossing is an edge only if the key was not active before. */
  function Mark(e: Edges, key: Key, crossed: bool): Edges {
    if crossed then Edges(e.fired + {key}, if key in e.fired then e.pending else e.pending + {key})
    else Edges(e.fired - {key}, e.pending)
  }

  /** A scope to check: its name, its budget and what was consumed. */
  datatype Load = Load(name: string, scope: Scope, cumulative: real)

  predicate Judged(l: Load, fraction: real) { l.scope.budget > 0.0 && l.scope.budget * fraction > 0.0 }

  predicate Crossed(l: Load, fraction: real) { l.cumulative >= l.scope.budget * fraction }

  function CheckLevels(e: Edges, l: Load, levels: seq<(real, Level)>): (Edges, seq<Warning>) {
    if levels == [] then (e, [])
    else
      var (fraction, level) := levels[|levels| - 1];
      var (before, warnings) := CheckLevels(e, l, levels[..|levels| - 1]);
      if !Judged(l, fraction) then (before, warnings)
      else (Mark(before, Key(l.name, level), Crossed(l, fraction)),
            if Crossed(l, fraction) then warnings + [Warning(Key(l.name, level), fraction, l.scope.budget, l.cumulative)]
            else warnings)
  }

  function CheckLoads(e: Edges, loads: seq<Load>): (Edges, seq<Warning>) {
    if loads == [] then (e, [])
    else
      var last := loads[|loads| - 1];
      var (before, warnings) := CheckLoads(e, loads[..|loads| - 1]);
      var (after, more) := CheckLevels(before, last, Levels(last.scope));
      (after, warnings + more)
  }

  function GlobalLoads(c: Config, records: seq<Record>): seq<Load> {
    if c.overall.None? then []
    else [Load(GLOBAL, c.overall.value, Cumulative(c.overall.value.unit, Aggregate(records)))]
  }

  function ProviderLoad(records: seq<Record>): ((string, Scope)) -> Load {
    (p: (string, Scope)) => Load(p.0, p.1, Cumulative(p.1.unit, Aggregate(Group(records, p.0))))
  }

  /** The scopes of a configuration, the global one first. */
  function Loads(c: Config, records: seq<Record>): seq<Load> {
    GlobalLoads(c, records) + Map(c.perProvider, ProviderLoad(records))
  }

  // ------------------------------------------------------------------- the store

  datatype Store = Store(records: seq<Record>, config: Config, edges: Edges)

  const NO_EDGES := Edges({}, {})

  function Checked(st: Store, c: Config): (Store, seq<Warning>) {
    var (e, warnings) := CheckLoads(Edges(st.edges.fired, {}), Loads(c, st.records));
    (st.(edges := e), warnings)
  }

  function Discard(e: Edges, key: Key): Edges { Edges(e.fired, e.pending - {key}) }

  class CostStore {
    var records: seq<Record>
    var fired: set<Key>
    var freshEdges: set<Key>
    var config: Config
    var listeners: nat

    function State(): Store
      reads this
    {
      Store(records, config, Edges(fired, freshEdges))
    }

    constructor (c: Config)
      ensures State() == Store([], c, NO_EDGES) && listeners == 0
    {
      records, fired, freshEdges, config, listeners := [], {}, {}, c, 0;
    }

    method Append(r: Record)
      modifies this`records
      ensures State() == old(State()).(records := old(records) + [r])
    {
      records := records + [r];
    }

    /** `_aggregate`. */
    static method Sum(rs: seq<Record>) returns (totals: Totals)
      ensures totals == Aggregate(rs)
    {
      var input, output, tokens, requests, unmetered := 0, 0, 0, 0, 0;
      var costSum, costSeen := 0.0, false;
      for i := 0 to |rs|
        invariant Aggregate(rs[..i]) == Totals(input, output, tokens, requests, if costSeen then Some(costSum) else None, unmetered)
        invariant !costSeen ==> costSum == 0.0
      {
        var r := rs[i];
        assert rs[..i + 1][..i] == rs[..i] && rs[..i + 1][i] == r;
        if r.input.Some? { input := input + r.input.value; }
        if r.output.Some? { output := output + r.output.value; }
        if r.total.Some? { tokens := tokens + r.total.value; }
        requests := requests + r.requests;
        if r.unmetered { unmetered := unmetered + 1; }
        if r.cost.Some? {
          costSum := costSum + r.cost.value;
          costSeen := true;
        }
      }
      assert rs[..|rs|] == rs;
      totals := Totals(input, output, tokens, requests, if costSeen then Some(costSum) else None, unmetered);
    }

    /** The groups of `totals_by_provider`. */
    static method Groups(rs: seq<Record>) returns (groups: map<string, seq<Record>>)
      ensures Grouped(rs, groups)
    {
      groups := map[];
      assert Grouped(rs[..0], groups);
      hide Grouped;
      hide ProviderOf;
      for i := 0 to |rs|
        invariant Grouped(rs[..i], groups)
      {
        var key := ProviderOf(rs[i]);
        var group := if key in groups then groups[key] else [];
        NextGroup(rs, i, groups);
        groups := groups[key := group + [rs[i]]];
      }
      assert rs[..|rs|] == rs;
    }

    /** `totals_by_provider`: one entry per provider that has a record. */
    method TotalsByProvider() returns (totals: map<string, Totals>)
      ensures forall p :: p in totals <==> exists r :: r in records && ProviderOf(r) == p
      ensures forall p :: p in totals ==> totals[p] == Aggregate(Group(records, p))
    {
      hide Group;
      hide Aggregate;
      var groups := Groups(records);
      totals := map[];
      var todo := groups.Keys;
      while todo != {}
        invariant todo <= groups.Keys && totals.Keys == groups.Keys - todo
        invariant forall p :: p in totals ==> totals[p] == Aggregate(groups[p])
        decreases todo
      {
        var p :| p in todo;
        var sum := Sum(groups[p]);
        totals := totals[p := sum];
        todo := todo - {p};
      }
    }

    /** `_check_scope`. */
    method CheckScope(l: Load) returns (out: seq<Warning>)
      modifies this`fired, this`freshEdges
      ensures (Edges(fired, freshEdges), out) == CheckLevels(old(Edges(fired, freshEdges)), l, Levels(l.scope))
    {
      out := [];
      var levels := Levels(l.scope);
      ghost var before := Edges(fired, freshEdges);
      for i := 0 to |levels|
        invariant (Edges(fired, freshEdges), out) == CheckLevels(before, l, levels[..i])
      {
        var (fraction, level) := levels[i];
        assert levels[..i + 1][..i] == levels[..i];
        if l.scope.budget > 0.0 && l.scope.budget * fraction > 0.0 {
          var key := Key(l.name, level);
          if l.cumulative >= l.scope.budget * fraction {
            var edge := key !in fired;
            fired := fired + {key};
            if edge {
              freshEdges := freshEdges + {key};
            }
            out := out + [Warning(key, fraction, l.scope.budget, l.cumulative)];
          } else {
            fired := fired - {key};
          }
        }
      }
      assert levels[..|levels|] == levels;
    }

    /** `check_budget`: edges are fresh only until the next check. */
    method CheckBudget(given: Option<Config>) returns (warnings: seq<Warning>)
      modifies this`fired, this`freshEdges
      ensures (State(), warnings) == Checked(old(State()), if given.Some? then given.value else old(config))
    {
      hide Loads;
      hide CheckLevels;
      hide Levels;
      var c := if given.Some? then given.value else config;
      freshEdges := {};
      warnings := [];
      ghost var start := Edges(fired, freshEdges);
      var loads := Loads(c, records);
      for i := 0 to |loads|
        invariant (Edges(fired, freshEdges), warnings) == CheckLoads(start, loads[..i])
      {
        assert loads[..i + 1][..i] == loads[..i];
        var more := CheckScope(loads[i]);
        warnings := warnings + more;
      }
      assert loads[..|loads|] == loads;
    }

    /** `emit_warning`: how many listeners are told; a fresh crossing is used up. */
    method EmitWarning(key: Key) returns (told: nat)
      modifies this`freshEdges
      ensures told == if key in old(freshEdges) then listeners else 0
      ensures State() == old(State()).(edges := Discard(old(State()).edges, key))
    {
      told := if key in freshEdges then listeners else 0;
      freshEdges := freshEdges - {key};
    }

    method OnWarning()
      modifies this`listeners
      ensures listeners == old(listeners) + 1
    {
      listeners := listeners + 1;
    }

    method AcknowledgeWarning(key: Key)
      modifies this`fired, this`freshEdges
      ensures State() == old(State()).(edges := Edges(old(fired) - {key}, old(freshEdges) - {key}))
    {
      fired, freshEdges := fired - {key}, freshEdges - {key};
    }

    method SetBudgetConfig(c: Config)
      modifies this`config
      ensures State() == old(State()).(config := c)
    {
      config := c;
    }

    method Reset()
      modifies this`records, this`fired, this`freshEdges
      ensures State() == Store([], old(config), NO_EDGES)
    {
      records, fired, freshEdges := [], {}, {};
    }

    /** `load_snapshot`: `None` stands for a snapshot that is refused. */
    method LoadSnapshot(snapshot: Option<seq<Record>>)
      modifies this`records, this`fired, this`freshEdges
      ensures State() == if snapshot.None? then old(State()) else Store(snapshot.value, old(config), NO_EDGES)
    {
      if snapshot.Some? {
        records, fired, freshEdges := snapshot.value, {}, {};
      }
    }
  }

  /** `groups` has a key for every provider with a record, and its records in order. */
  ghost predicate Grouped(rs: seq<Record>, groups: map<string, seq<Record>>) {
    && (forall p :: p in groups <==> exists r :: r in rs && ProviderOf(r) == p)
    && (forall p :: p in groups ==> groups[p] == Group(rs, p))
  }

  lemma NextGroup(rs: seq<Record>, i: nat, groups: map<string, seq<Record>>)
    requires i < |rs| && Grouped(rs[..i], groups)
    ensures var key := ProviderOf(rs[i]);
      Grouped(rs[..i + 1], groups[key := (if key in groups then groups[key] else []) + [rs[i]]])
  {
    hide Group;
    hide ProviderOf;
    var before, r := rs[..i], rs[i];
    assert rs[..i + 1] == before + [r];
    forall p
      ensures Group(before + [r], p) == Group(before, p) + if ProviderOf(r) == p then [r] else []
    {
      GroupSnoc(before, r, p);
    }
    if ProviderOf(r) !in groups {
      GroupNone(before, ProviderOf(r));
    }
  }

  lemma GroupSnoc(rs: seq<Record>, r: Record, p: string)
    ensures Group(rs + [r], p) == Group(rs, p) + if ProviderOf(r) == p then [r] else []
  {
    FilterAppend(rs, [r], From(p));
    FilterOne(r, From(p));
  }

  lemma GroupNone(rs: seq<Record>, p: string)
    requires forall r :: r in rs ==> ProviderOf(r) != p
    ensures Group(rs, p) == []
  {
    FilterNone(rs, From(p));
  }

  // ------------------------------------------------------------------- the metering wrapper

  /** Walk the warnings of a check, telling whoever was not told by this wrapper before. */
  function Announce(seen: set<Key>, e: Edges, warnings: seq<Warning>): (set<Key>, Edges, seq<Key>) {
    if warnings == [] then (seen, e, [])
    else
      var (seen1, e1, told) := Announce(seen, e, warnings[..|warnings| - 1]);
      var key := warnings[|warnings| - 1].key;
      if key in seen1 then (seen1, e1, told) else (seen1 + {key}, Discard(e1, key), told + [key])
  }

  class MeteringWrapper {
    var fired: set<Key>

    constructor ()
      ensures fired == {}
    {
      fired := {};
    }

    /** `_meter_success`: append, check with the merged configuration, announce. The result lists
        the callbacks made, in order. */
    method MeterSuccess(store: CostStore, r: Record, merged: Config) returns (callbacks: seq<Key>)
      modifies this, store`records, store`fired, store`freshEdges
      ensures var start := old(store.State());
        var (checked, warnings) := Checked(start.(records := start.records + [r]), merged);
        var (seen, edges, told) := Announce(old(fired), checked.edges, warnings);
        fired == seen && store.State() == checked.(edges := edges) && callbacks == told
    {
      store.Append(r);
      var warnings := store.CheckBudget(Some(merged));
      callbacks := [];
      ghost var checked := store.State();
      ghost var seen := fired;
      for i := 0 to |warnings|
        invariant (fired, store.State().edges, callbacks) == Announce(seen, checked.edges, warnings[..i])
        invariant store.State() == checked.(edges := store.State().edges)
      {
        assert warnings[..i + 1][..i] == warnings[..i];
        var key := warnings[i].key;
        if key !in fired {
          fired := fired + {key};
          callbacks := callbacks + [key];
          var _ := store.EmitWarning(key);
        }
      }
      assert warnings[..|warnings|] == warnings;
    }
  }
}
