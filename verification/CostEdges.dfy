/** Edge-triggered warnings over every interleaving of the store's operations. */
module CostEdges {
  import opened Sequences
  import opened CostStores

  datatype Op = Append(r: Record) | Check(given: Option<Config>) | Emit(key: Key) | Acknowledge(key: Key)
              | SetConfig(c: Config) | Reset | LoadSnapshot(snapshot: Option<seq<Record>>)

  function Apply(st: Store, op: Op): Store {
    match op
    case Append(r) => st.(records := st.records + [r])
    case Check(given) => Checked(st, if given.Some? then given.value else st.config).0
    case Emit(key) => st.(edges := Discard(st.edges, key))
    case Acknowledge(key) => st.(edges := Edges(st.edges.fired - {key}, st.edges.pending - {key}))
    case SetConfig(c) => st.(config := c)
    case Reset => Store([], st.config, NO_EDGES)
    case LoadSnapshot(snapshot) => if snapshot.None? then st else Store(snapshot.value, st.config, NO_EDGES)
  }

  /** The store after the first `i` operations. */
  function StateAt(st: Store, ops: seq<Op>, i: nat): Store
    requires i <= |ops|
  {
    if i == 0 then st else Apply(StateAt(st, ops, i - 1), ops[i - 1])
  }

  /** Operation `op` notifies the listeners about `key`. */
  predicate Notifies(st: Store, op: Op, key: Key) { op == Emit(key) && key in st.edges.pending }

  /** Some judged level of `key` is below its threshold. */
  ghost predicate Below(loads: seq<Load>, key: Key) {
    exists i :: 0 <= i < |loads| && BelowIn(loads[i], Levels(loads[i].scope), key)
  }

  ghost predicate BelowIn(l: Load, levels: seq<(real, Level)>, key: Key) {
    exists j :: 0 <= j < |levels| && Key(l.name, levels[j].1) == key && Judged(l, levels[j].0) && !Crossed(l, levels[j].0)
  }

  /** Operations that let a later crossing of `key` count as a new one. */
  ghost predicate Rearms(st: Store, op: Op, key: Key) {
    match op
    case Check(given) => Below(Loads(if given.Some? then given.value else st.config, st.records), key)
    case Acknowledge(k) => k == key
    case Reset => true
    case LoadSnapshot(snapshot) => snapshot.Some?
    case _ => false
  }

  // ------------------------------------------------------------------- one check

  ghost predicate PendingFired(e: Edges) { e.pending <= e.fired }

  /** An active key that is nowhere below its threshold stays active and is not pending anew. */
  lemma {:induction false} LevelsKeep(e: Edges, l: Load, levels: seq<(real, Level)>, key: Key)
    requires key in e.fired
    requires !BelowIn(l, levels, key)
    ensures var after := CheckLevels(e, l, levels).0;
      key in after.fired && (key in after.pending <==> key in e.pending)
  {
    if levels != [] {
      var init := levels[..|levels| - 1];
      assert forall j :: 0 <= j < |init| ==> init[j] == levels[j];
      LevelsKeep(e, l, init, key);
    }
  }

  lemma {:induction false} LoadsKeep(e: Edges, loads: seq<Load>, key: Key)
    requires key in e.fired && !Below(loads, key)
    ensures var after := CheckLoads(e, loads).0;
      key in after.fired && (key in after.pending <==> key in e.pending)
  {
    if loads != [] {
      var init, last := loads[..|loads| - 1], loads[|loads| - 1];
      assert forall i :: 0 <= i < |init| ==> init[i] == loads[i];
      LoadsKeep(e, init, key);
      hide BelowIn;
      LevelsKeep(CheckLoads(e, init).0, last, Levels(last.scope), key);
    }
  }

  /** Checking one scope leaves other scopes' keys alone. */
  lemma {:induction false} LevelsFrame(e: Edges, l: Load, levels: seq<(real, Level)>)
    ensures var after := CheckLevels(e, l, levels).0;
      forall key: Key :: key.scope != l.name || (forall j :: 0 <= j < |levels| ==> levels[j].1 != key.level) ==>
        (key in after.fired <==> key in e.fired) && (key in after.pending <==> key in e.pending)
  {
    if levels != [] {
      LevelsFrame(e, l, levels[..|levels| - 1]);
    }
  }

  ghost predicate DistinctLevels(levels: seq<(real, Level)>) {
    forall i, j :: 0 <= i < j < |levels| ==> levels[i].1 != levels[j].1
  }

  lemma {:induction false} LevelsPending(e: Edges, l: Load, levels: seq<(real, Level)>)
    requires PendingFired(e) && DistinctLevels(levels) && forall key :: key in e.pending ==> key.scope != l.name
    ensures var after := CheckLevels(e, l, levels).0;
      PendingFired(after) && forall key :: key in after.pending ==> key in e.pending || key.scope == l.name
  {
    if levels != [] {
      LevelsPending(e, l, levels[..|levels| - 1]);
      LevelsFrame(e, l, levels[..|levels| - 1]);
    }
  }

  ghost predicate DistinctNames(loads: seq<Load>) {
    forall i, j :: 0 <= i < j < |loads| ==> loads[i].name != loads[j].name
  }

  lemma {:induction false} LoadsPending(fired: set<Key>, loads: seq<Load>)
    requires DistinctNames(loads)
    ensures var after := CheckLoads(Edges(fired, {}), loads).0;
      PendingFired(after) && forall key :: key in after.pending ==> exists i :: 0 <= i < |loads| && loads[i].name == key.scope
  {
    if loads != [] {
      var init, last := loads[..|loads| - 1], loads[|loads| - 1];
      LoadsPending(fired, init);
      var before := CheckLoads(Edges(fired, {}), init).0;
      forall key | key in before.pending
        ensures key.scope != last.name && exists i :: 0 <= i < |loads| && loads[i].name == key.scope
      {
        var i :| 0 <= i < |init| && init[i].name == key.scope;
        assert loads[i].name == key.scope;
      }
      LevelsPending(before, last, Levels(last.scope));
      forall key | key in CheckLoads(Edges(fired, {}), loads).0.pending
        ensures exists i :: 0 <= i < |loads| && loads[i].name == key.scope
      {
        assert loads[|loads| - 1].name == last.name;
      }
    }
  }

  // ------------------------------------------------------------------- every interleaving

  /** A configuration names each provider once, and no provider is called "global". */
  ghost predicate ProperConfig(c: Config) {
    && (forall i, j :: 0 <= i < j < |c.perProvider| ==> c.perProvider[i].0 != c.perProvider[j].0)
    && (c.overall.Some? ==> forall i :: 0 <= i < |c.perProvider| ==> c.perProvider[i].0 != GLOBAL)
  }

  ghost predicate ProperRun(st: Store, ops: seq<Op>) {
    && ProperConfig(st.config)
    && forall i :: 0 <= i < |ops| ==>
         && (ops[i].SetConfig? ==> ProperConfig(ops[i].c))
         && (ops[i].Check? && ops[i].given.Some? ==> ProperConfig(ops[i].given.value))
  }

  lemma ProperLoads(c: Config, records: seq<Record>)
    requires ProperConfig(c)
    ensures DistinctNames(Loads(c, records))
  {
    var first, rest := GlobalLoads(c, records), Map(c.perProvider, ProviderLoad(records));
    forall i | 0 <= i < |rest|
      ensures rest[i].name == c.perProvider[i].0
    {
      assert rest[i] == ProviderLoad(records)(c.perProvider[i]);
    }
    assert DistinctNames(rest) && |first| <= 1;
    hide Map;
    hide GlobalLoads;
    hide Aggregate;
    hide Cumulative;
    forall i, j | 0 <= i < j < |first + rest|
      ensures (first + rest)[i].name != (first + rest)[j].name
    {
      if i < |first| {
        FirstIsGlobal(c, records);
      }
    }
  }

  lemma FirstIsGlobal(c: Config, records: seq<Record>)
    ensures forall l :: l in GlobalLoads(c, records) ==> l.name == GLOBAL && c.overall.Some?
  {
  }

  /** Fresh crossings are always active ones. */
  lemma {:induction false} PendingAreActive(st: Store, ops: seq<Op>, i: nat)
    requires i <= |ops| && ProperRun(st, ops) && PendingFired(st.edges)
    ensures PendingFired(StateAt(st, ops, i).edges) && ProperConfig(StateAt(st, ops, i).config)
  {
    hide ProperConfig;
    if i > 0 {
      PendingAreActive(st, ops, i - 1);
      var now, op := StateAt(st, ops, i - 1), ops[i - 1];
      if op.Check? {
        var c := if op.given.Some? then op.given.value else now.config;
        ProperLoads(c, now.records);
        LoadsPending(now.edges.fired, Loads(c, now.records));
        hide CheckLoads;
        hide Loads;
        hide DistinctNames;
      }
    }
  }

  /** A key that is active and was announced stays so until an operation re-arms it. */
  lemma StaysQuiet(st: Store, op: Op, key: Key)
    requires key in st.edges.fired && key !in st.edges.pending && !Rearms(st, op, key)
    ensures var after := Apply(st, op); key in after.edges.fired && key !in after.edges.pending
  {
    if op.Check? {
      LoadsKeep(Edges(st.edges.fired, {}), Loads(if op.given.Some? then op.given.value else st.config, st.records), key);
      hide CheckLoads;
      hide Loads;
    }
  }

  lemma {:induction false} QuietUntil(st: Store, ops: seq<Op>, i: nat, j: nat, key: Key)
    requires i <= j <= |ops|
    requires key in StateAt(st, ops, i).edges.fired && key !in StateAt(st, ops, i).edges.pending
    requires forall m :: i <= m < j ==> !Rearms(StateAt(st, ops, m), ops[m], key)
    ensures key in StateAt(st, ops, j).edges.fired && key !in StateAt(st, ops, j).edges.pending
  {
    if i < j {
      QuietUntil(st, ops, i, j - 1, key);
      StaysQuiet(StateAt(st, ops, j - 1), ops[j - 1], key);
      hide Apply;
      hide Rearms;
    }
  }

  lemma UsedUp(st: Store, ops: seq<Op>, i: nat, key: Key)
    requires i < |ops| && PendingFired(StateAt(st, ops, i).edges) && Notifies(StateAt(st, ops, i), ops[i], key)
    ensures key in StateAt(st, ops, i + 1).edges.fired && key !in StateAt(st, ops, i + 1).edges.pending
  {
    hide Checked;
  }

  /** Between two notifications of one (scope, level), in any interleaving of the operations,
      there is a check below the threshold, an acknowledgement, a reset or a snapshot load. */
  lemma OncePerCrossing(st: Store, ops: seq<Op>, i: nat, j: nat, key: Key)
    requires i < j < |ops| && ProperRun(st, ops) && PendingFired(st.edges)
    requires Notifies(StateAt(st, ops, i), ops[i], key) && Notifies(StateAt(st, ops, j), ops[j], key)
    ensures exists m :: i < m < j && Rearms(StateAt(st, ops, m), ops[m], key)
  {
    hide ProperRun;
    hide StateAt;
    hide Rearms;
    hide PendingFired;
    PendingAreActive(st, ops, i);
    UsedUp(st, ops, i, key);
    if forall m :: i < m < j ==> !Rearms(StateAt(st, ops, m), ops[m], key) {
      QuietUntil(st, ops, i + 1, j, key);
    }
  }

  // ------------------------------------------------------------------- spending only grows

  /** A record that takes nothing back. */
  ghost predicate Spends(r: Record) { Known(r.total) >= 0 && r.requests >= 0 && Spent(r.cost) >= 0.0 }

  /** Records are appended, the store's own budgets are checked, and warnings are emitted. */
  ghost predicate SpendOnly(ops: seq<Op>) { forall i :: 0 <= i < |ops| ==> SpendOp(ops[i]) }

  ghost predicate SpendOp(op: Op) {
    match op
    case Append(r) => Spends(r)
    case Check(given) => given.None?
    case Emit(_) => true
    case _ => false
  }

  lemma AggregateGrows(rs: seq<Record>, r: Record, unit: Unit)
    requires Spends(r)
    ensures Cumulative(unit, Aggregate(rs)) <= Cumulative(unit, Aggregate(rs + [r]))
  {
    assert (rs + [r])[..|rs|] == rs;
  }

  /** Every load of the same configuration grows when a record is appended. */
  lemma LoadsGrow(c: Config, rs: seq<Record>, r: Record)
    requires Spends(r)
    ensures var before, after := Loads(c, rs), Loads(c, rs + [r]);
      && |before| == |after|
      && forall i :: 0 <= i < |before| ==>
           after[i].name == before[i].name && after[i].scope == before[i].scope && before[i].cumulative <= after[i].cumulative
  {
    hide Group;
    hide Aggregate;
    hide Cumulative;
    if c.overall.Some? {
      AggregateGrows(rs, r, c.overall.value.unit);
    }
    var before, after := Map(c.perProvider, ProviderLoad(rs)), Map(c.perProvider, ProviderLoad(rs + [r]));
    forall i | 0 <= i < |c.perProvider|
      ensures after[i].name == before[i].name && after[i].scope == before[i].scope && before[i].cumulative <= after[i].cumulative
    {
      var p := c.perProvider[i];
      assert before[i] == ProviderLoad(rs)(p) && after[i] == ProviderLoad(rs + [r])(p);
      GroupSnoc(rs, r, p.0);
      AggregateGrows(Group(rs, p.0), r, p.1.unit);
      assert Group(rs, p.0) + [] == Group(rs, p.0);
    }
    hide Map;
  }

  /** Every active key is at or above its threshold. */
  ghost predicate ActiveAbove(st: Store) { forall key :: key in st.edges.fired ==> !Below(Loads(st.config, st.records), key) }

  lemma LessConsumed(l: Load, more: Load, key: Key)
    requires l.name == more.name && l.scope == more.scope && l.cumulative <= more.cumulative
    requires BelowIn(more, Levels(more.scope), key)
    ensures BelowIn(l, Levels(l.scope), key)
  {
    hide Levels;
  }

  lemma BelowShrinks(c: Config, rs: seq<Record>, r: Record, key: Key)
    requires Spends(r) && Below(Loads(c, rs + [r]), key)
    ensures Below(Loads(c, rs), key)
  {
    hide Loads;
    hide Levels;
    hide BelowIn;
    LoadsGrow(c, rs, r);
    var before, after := Loads(c, rs), Loads(c, rs + [r]);
    var i :| 0 <= i < |after| && BelowIn(after[i], Levels(after[i].scope), key);
    LessConsumed(before[i], after[i], key);
  }

  /** A level that is below its threshold leaves its key inactive. */
  lemma {:induction false} LevelsActivate(e: Edges, l: Load, levels: seq<(real, Level)>, key: Key)
    requires DistinctLevels(levels) && key in CheckLevels(e, l, levels).0.fired
    ensures !BelowIn(l, levels, key)
  {
    if levels != [] {
      var init := levels[..|levels| - 1];
      assert forall j :: 0 <= j < |init| ==> init[j] == levels[j];
      if key in CheckLevels(e, l, init).0.fired {
        LevelsActivate(e, l, init, key);
      }
    }
  }

  lemma {:induction false} LoadsActivate(e: Edges, loads: seq<Load>, key: Key)
    requires DistinctNames(loads) && key in CheckLoads(e, loads).0.fired
    ensures !Below(loads, key)
  {
    hide CheckLevels;
    hide BelowIn;
    if loads != [] {
      var init, last := loads[..|loads| - 1], loads[|loads| - 1];
      assert forall i :: 0 <= i < |init| ==> init[i] == loads[i];
      LevelsActivate(CheckLoads(e, init).0, last, Levels(last.scope), key);
      if key.scope != last.name {
        LevelsFrame(CheckLoads(e, init).0, last, Levels(last.scope));
        LoadsActivate(e, init, key);
      }
      forall i | 0 <= i < |loads|
        ensures !BelowIn(loads[i], Levels(loads[i].scope), key)
      {
        BelowName(loads[i], key);
      }
    }
  }

  lemma BelowName(l: Load, key: Key)
    ensures BelowIn(l, Levels(l.scope), key) ==> l.name == key.scope
  {
  }

  /** While spending only grows an active warning never becomes inactive. */
  lemma SpendKeeps(st: Store, op: Op)
    requires SpendOp(op) && ActiveAbove(st) && ProperConfig(st.config)
    ensures ActiveAbove(Apply(st, op)) && Apply(st, op).config == st.config
  {
    hide Loads;
    hide CheckLoads;
    hide Below;
    match op {
      case Append(r) =>
        forall key | key in st.edges.fired
          ensures !Below(Loads(st.config, st.records + [r]), key)
        {
          if Below(Loads(st.config, st.records + [r]), key) {
            BelowShrinks(st.config, st.records, r, key);
          }
        }
      case Check(_) =>
        ProperLoads(st.config, st.records);
        var loads := Loads(st.config, st.records);
        forall key | key in CheckLoads(Edges(st.edges.fired, {}), loads).0.fired
          ensures !Below(loads, key)
        {
          LoadsActivate(Edges(st.edges.fired, {}), loads, key);
        }
      case Emit(_) =>
      case _ =>
    }
  }

  lemma {:induction false} SpendRun(st: Store, ops: seq<Op>, i: nat)
    requires i <= |ops| && SpendOnly(ops) && st.edges == NO_EDGES && ProperConfig(st.config)
    ensures ActiveAbove(StateAt(st, ops, i)) && StateAt(st, ops, i).config == st.config
  {
    hide Apply;
    hide ProperConfig;
    hide SpendOp;
    hide ActiveAbove;
    if i == 0 {
      NothingActive(st);
    } else {
      SpendRun(st, ops, i - 1);
      SpendKeeps(StateAt(st, ops, i - 1), ops[i - 1]);
    }
  }

  lemma NothingActive(st: Store)
    requires st.edges == NO_EDGES
    ensures ActiveAbove(st)
  {
  }

  /** As long as spending only grows and nobody acknowledges, resets or reloads, the listeners
      hear about each (scope, level) at most once. */
  lemma AtMostOnce(st: Store, ops: seq<Op>, i: nat, j: nat, key: Key)
    requires i < j < |ops| && SpendOnly(ops) && st.edges == NO_EDGES && ProperConfig(st.config)
    ensures !Notifies(StateAt(st, ops, i), ops[i], key) || !Notifies(StateAt(st, ops, j), ops[j], key)
  {
    hide Below;
    hide ProperConfig;
    hide StateAt;
    if Notifies(StateAt(st, ops, i), ops[i], key) && Notifies(StateAt(st, ops, j), ops[j], key) {
      PendingAreActive(st, ops, i);
      UsedUp(st, ops, i, key);
      SpendQuiet(st, ops, i + 1, j, key);
    }
  }

  lemma {:induction false} SpendQuiet(st: Store, ops: seq<Op>, i: nat, j: nat, key: Key)
    requires i <= j <= |ops| && SpendOnly(ops) && st.edges == NO_EDGES && ProperConfig(st.config)
    requires key in StateAt(st, ops, i).edges.fired && key !in StateAt(st, ops, i).edges.pending
    ensures key in StateAt(st, ops, j).edges.fired && key !in StateAt(st, ops, j).edges.pending
  {
    hide Below;
    hide ProperConfig;
    hide Apply;
    hide Loads;
    hide Spends;
    if i < j {
      SpendQuiet(st, ops, i, j - 1, key);
      SpendRun(st, ops, j - 1);
      StaysQuiet(StateAt(st, ops, j - 1), ops[j - 1], key);
    }
  }

  // ------------------------------------------------------------------- one crossing, exactly

  /** Some judged level of `key` is reached. */
  ghost predicate Reached(loads: seq<Load>, key: Key) {
    exists i :: 0 <= i < |loads| && ReachedIn(loads[i], Levels(loads[i].scope), key)
  }

  ghost predicate ReachedIn(l: Load, levels: seq<(real, Level)>, key: Key) {
    exists j :: 0 <= j < |levels| && Key(l.name, levels[j].1) == key && Judged(l, levels[j].0) && Crossed(l, levels[j].0)
  }

  /** What judging `key` makes of it: active when it was reached, or was active and is not below;
      a fresh crossing when it was reached and not active before. */
  ghost predicate JudgedTo(e: Edges, after: Edges, key: Key, reached: bool, below: bool) {
    && (key in after.fired <==> reached || (key in e.fired && !below))
    && (key in after.pending <==> key in e.pending || (reached && key !in e.fired))
  }

  lemma {:induction false} LevelsExact(e: Edges, l: Load, levels: seq<(real, Level)>, key: Key)
    requires DistinctLevels(levels)
    ensures JudgedTo(e, CheckLevels(e, l, levels).0, key, ReachedIn(l, levels, key), BelowIn(l, levels, key))
    ensures !(ReachedIn(l, levels, key) && BelowIn(l, levels, key))
  {
    if levels != [] {
      var n := |levels| - 1;
      var init := levels[..n];
      assert forall j :: 0 <= j < n ==> init[j] == levels[j];
      LevelsExact(e, l, init, key);
      assert ReachedIn(l, levels, key) <==>
        ReachedIn(l, init, key) || (Key(l.name, levels[n].1) == key && Judged(l, levels[n].0) && Crossed(l, levels[n].0));
      assert BelowIn(l, levels, key) <==>
        BelowIn(l, init, key) || (Key(l.name, levels[n].1) == key && Judged(l, levels[n].0) && !Crossed(l, levels[n].0));
      hide Judged;
      hide Crossed;
    }
  }

  lemma ReachedName(l: Load, key: Key)
    ensures ReachedIn(l, Levels(l.scope), key) || BelowIn(l, Levels(l.scope), key) ==> l.name == key.scope
  {
  }

  lemma LastJudges(loads: seq<Load>, key: Key)
    requires loads != []
    ensures var init, last := loads[..|loads| - 1], loads[|loads| - 1];
      && (Reached(loads, key) <==> Reached(init, key) || ReachedIn(last, Levels(last.scope), key))
      && (Below(loads, key) <==> Below(init, key) || BelowIn(last, Levels(last.scope), key))
  {
    hide ReachedIn;
    hide BelowIn;
    hide Levels;
    var init := loads[..|loads| - 1];
    assert forall i :: 0 <= i < |init| ==> init[i] == loads[i];
    if Reached(init, key) {
      var i :| 0 <= i < |init| && ReachedIn(init[i], Levels(init[i].scope), key);
      assert ReachedIn(loads[i], Levels(loads[i].scope), key);
    }
    if Below(init, key) {
      var i :| 0 <= i < |init| && BelowIn(init[i], Levels(init[i].scope), key);
      assert BelowIn(loads[i], Levels(loads[i].scope), key);
    }
  }

  /** Scopes checked before the last one say nothing about its keys. */
  lemma ForeignKey(loads: seq<Load>, key: Key)
    requires loads != [] && DistinctNames(loads) && loads[|loads| - 1].name == key.scope
    ensures var init := loads[..|loads| - 1]; !Reached(init, key) && !Below(init, key)
  {
    var init := loads[..|loads| - 1];
    hide ReachedIn;
    hide BelowIn;
    hide Levels;
    forall i | 0 <= i < |init|
      ensures !ReachedIn(init[i], Levels(init[i].scope), key) && !BelowIn(init[i], Levels(init[i].scope), key)
    {
      ReachedName(init[i], key);
      assert init[i] == loads[i];
    }
  }

  lemma TwoLevels(s: Scope)
    ensures DistinctLevels(Levels(s))
  {
  }

  lemma {:induction false} LoadsExact(e: Edges, loads: seq<Load>, key: Key)
    requires DistinctNames(loads)
    ensures JudgedTo(e, CheckLoads(e, loads).0, key, Reached(loads, key), Below(loads, key))
    ensures !(Reached(loads, key) && Below(loads, key))
  {
    hide CheckLevels;
    hide Levels;
    hide ReachedIn;
    hide BelowIn;
    if loads != [] {
      var init, last := loads[..|loads| - 1], loads[|loads| - 1];
      LoadsExact(e, init, key);
      LastJudges(loads, key);
      TwoLevels(last.scope);
      LevelsExact(CheckLoads(e, init).0, last, Levels(last.scope), key);
      ReachedName(last, key);
      if last.name == key.scope {
        ForeignKey(loads, key);
      }
      hide Reached;
      hide Below;
      hide DistinctNames;
    }
  }

  /** One check, key by key: a key is active afterwards if and only if a judged level of it is
      reached, or it was active and none is below; it is a fresh crossing if and only if a level
      is reached and it was not active before. Crossings of earlier checks are forgotten. */
  lemma CheckExact(st: Store, given: Option<Config>, key: Key)
    requires ProperConfig(if given.Some? then given.value else st.config)
    ensures var loads := Loads(if given.Some? then given.value else st.config, st.records);
      var after := Apply(st, Check(given));
      && (key in after.edges.fired <==> Reached(loads, key) || (key in st.edges.fired && !Below(loads, key)))
      && (key in after.edges.pending <==> Reached(loads, key) && key !in st.edges.fired)
      && (Notifies(after, Emit(key), key) <==> Reached(loads, key) && key !in st.edges.fired)
  {
    var c := if given.Some? then given.value else st.config;
    ProperLoads(c, st.records);
    LoadsExact(Edges(st.edges.fired, {}), Loads(c, st.records), key);
    hide CheckLoads;
    hide Loads;
    hide Reached;
    hide Below;
    hide DistinctNames;
  }

  /** An appended record counts in the next check. */
  lemma AppendCounts(st: Store, r: Record, key: Key)
    requires ProperConfig(st.config)
    ensures key in Apply(Apply(st, Append(r)), Check(None)).edges.pending <==>
            Reached(Loads(st.config, st.records + [r]), key) && key !in st.edges.fired
  {
    hide Checked;
    CheckExact(Apply(st, Append(r)), None, key);
    hide Reached;
    hide Below;
  }

  /** A new configuration is the one that the next check judges by. */
  lemma ConfigCounts(st: Store, c: Config, key: Key)
    requires ProperConfig(c)
    ensures key in Apply(Apply(st, SetConfig(c)), Check(None)).edges.pending <==>
            Reached(Loads(c, st.records), key) && key !in st.edges.fired
  {
    hide Checked;
    CheckExact(Apply(st, SetConfig(c)), None, key);
    hide Reached;
    hide Below;
  }

  /** Acknowledging a key makes its next crossing fresh and leaves the other keys as they were. */
  lemma AcknowledgeRearms(st: Store, other: Key, key: Key)
    requires ProperConfig(st.config)
    ensures key in Apply(Apply(st, Acknowledge(other)), Check(None)).edges.pending <==>
            Reached(Loads(st.config, st.records), key) && (key == other || key !in st.edges.fired)
    ensures key in Apply(st, Acknowledge(other)).edges.pending <==> key in st.edges.pending && key != other
  {
    hide Checked;
    CheckExact(Apply(st, Acknowledge(other)), None, key);
    hide Reached;
    hide Below;
  }

  /** After a reset or a load nothing is active, and only the records that are left count. */
  lemma NothingLeft(st: Store, rs: seq<Record>, key: Key)
    requires ProperConfig(st.config)
    ensures key in Apply(Apply(st, Reset), Check(None)).edges.pending <==> Reached(Loads(st.config, []), key)
    ensures key in Apply(Apply(st, LoadSnapshot(Some(rs))), Check(None)).edges.pending <==> Reached(Loads(st.config, rs), key)
    ensures Apply(st, LoadSnapshot(None)) == st
  {
    hide Checked;
    CheckExact(Apply(st, Reset), None, key);
    CheckExact(Apply(st, LoadSnapshot(Some(rs))), None, key);
    hide Reached;
    hide Below;
  }

  // ------------------------------------------------------------------- the warnings of a check

  function KeyOf(): Warning -> Key { (w: Warning) => w.key }

  function LevelKeys(l: Load, levels: seq<(real, Level)>): seq<Key> { Map(levels, (p: (real, Level)) => Key(l.name, p.1)) }

  /** The keys a configuration may warn of, in its order: the global scope first. */
  function AllKeys(loads: seq<Load>): seq<Key> {
    if loads == [] then []
    else AllKeys(loads[..|loads| - 1]) + LevelKeys(loads[|loads| - 1], Levels(loads[|loads| - 1].scope))
  }

  lemma {:induction false} LevelsWarn(e: Edges, l: Load, levels: seq<(real, Level)>)
    requires DistinctLevels(levels)
    ensures Map(CheckLevels(e, l, levels).1, KeyOf()) == Filter(LevelKeys(l, levels), (key: Key) => ReachedIn(l, levels, key))
  {
    if levels != [] {
      LevelsWarn(e, l, levels[..|levels| - 1]);
      LevelKeysStep(l, levels);
      LastWarns(e, l, levels);
      LastLevel(l, levels);
      hide Filter;
      hide Map;
      hide CheckLevels;
      hide LevelKeys;
      hide ReachedIn;
      hide DistinctLevels;
    }
  }

  /** Every warning says what was budgeted, what was used up, and the share that was passed. */
  lemma {:induction false} LevelsSay(e: Edges, l: Load, levels: seq<(real, Level)>)
    ensures forall w :: w in CheckLevels(e, l, levels).1 ==>
      w.key.scope == l.name && w.budget == l.scope.budget && w.cumulative == l.cumulative >= w.budget * w.fraction
  {
    if levels != [] {
      LevelsSay(e, l, levels[..|levels| - 1]);
    }
  }

  lemma LastWarns(e: Edges, l: Load, levels: seq<(real, Level)>)
    requires levels != []
    ensures var init, last := levels[..|levels| - 1], levels[|levels| - 1];
      Map(CheckLevels(e, l, levels).1, KeyOf()) == Map(CheckLevels(e, l, init).1, KeyOf()) +
        if Judged(l, last.0) && Crossed(l, last.0) then [Key(l.name, last.1)] else []
  {
    var init, last := levels[..|levels| - 1], levels[|levels| - 1];
    var warnings := CheckLevels(e, l, init).1;
    MapAppend(warnings, Warning(Key(l.name, last.1), last.0, l.scope.budget, l.cumulative), KeyOf());
    hide Map;
    hide Judged;
    hide Crossed;
    assert Map(warnings, KeyOf()) + [] == Map(warnings, KeyOf());
  }

  lemma LevelKeysStep(l: Load, levels: seq<(real, Level)>)
    requires levels != [] && DistinctLevels(levels)
    ensures var init, key := levels[..|levels| - 1], Key(l.name, levels[|levels| - 1].1);
      Filter(LevelKeys(l, levels), (k: Key) => ReachedIn(l, levels, k)) ==
        Filter(LevelKeys(l, init), (k: Key) => ReachedIn(l, init, k)) + if ReachedIn(l, levels, key) then [key] else []
  {
    var init, last := levels[..|levels| - 1], levels[|levels| - 1];
    var key := Key(l.name, last.1);
    var now, before := (k: Key) => ReachedIn(l, levels, k), (k: Key) => ReachedIn(l, init, k);
    assert levels == init + [last];
    MapAppend(init, last, (p: (real, Level)) => Key(l.name, p.1));
    FilterAppend(LevelKeys(l, init), [key], now);
    FilterOne(key, now);
    forall k | k in LevelKeys(l, init)
      ensures now(k) <==> before(k)
    {
      OtherLevel(l, levels, k);
    }
    FilterSame(LevelKeys(l, init), now, before);
    hide Filter;
    hide Map;
    hide ReachedIn;
  }

  /** A key of an earlier level is reached there or nowhere. */
  lemma OtherLevel(l: Load, levels: seq<(real, Level)>, key: Key)
    requires levels != [] && DistinctLevels(levels) && key in LevelKeys(l, levels[..|levels| - 1])
    ensures ReachedIn(l, levels, key) <==> ReachedIn(l, levels[..|levels| - 1], key)
  {
    var init := levels[..|levels| - 1];
    var i :| 0 <= i < |init| && Key(l.name, init[i].1) == key;
    assert forall j :: 0 <= j < |init| ==> init[j] == levels[j];
    hide Judged;
    hide Crossed;
  }

  lemma LastLevel(l: Load, levels: seq<(real, Level)>)
    requires levels != [] && DistinctLevels(levels)
    ensures var last := levels[|levels| - 1];
      ReachedIn(l, levels, Key(l.name, last.1)) <==> Judged(l, last.0) && Crossed(l, last.0)
  {
    hide Judged;
    hide Crossed;
  }

  lemma KeysNamed(loads: seq<Load>)
    ensures forall key :: key in AllKeys(loads) ==> exists i :: 0 <= i < |loads| && loads[i].name == key.scope
  {
    if loads != [] {
      var init := loads[..|loads| - 1];
      KeysNamed(init);
      forall key | key in AllKeys(loads)
        ensures exists i :: 0 <= i < |loads| && loads[i].name == key.scope
      {
        if key in AllKeys(init) {
          var i :| 0 <= i < |init| && init[i].name == key.scope;
          assert loads[i].name == key.scope;
        } else {
          assert loads[|loads| - 1].name == key.scope;
        }
      }
    }
  }

  /** The warnings of a check are exactly those of the reached keys, in the order of the
      configuration. */
  lemma {:induction false} LoadsWarn(e: Edges, loads: seq<Load>)
    requires DistinctNames(loads)
    ensures Map(CheckLoads(e, loads).1, KeyOf()) == Filter(AllKeys(loads), (key: Key) => Reached(loads, key))
  {
    if loads != [] {
      var init, last := loads[..|loads| - 1], loads[|loads| - 1];
      LoadsWarn(e, init);
      TwoLevels(last.scope);
      LevelsWarn(CheckLoads(e, init).0, last, Levels(last.scope));
      var keys, own := AllKeys(init), LevelKeys(last, Levels(last.scope));
      var now, before := (key: Key) => Reached(loads, key), (key: Key) => Reached(init, key);
      var here := (key: Key) => ReachedIn(last, Levels(last.scope), key);
      KeysNamed(init);
      forall key | key in keys
        ensures now(key) <==> before(key)
      {
        LastJudges(loads, key);
        ReachedName(last, key);
      }
      forall key | key in own
        ensures now(key) <==> here(key)
      {
        LastJudges(loads, key);
        ForeignKey(loads, key);
      }
      FilterSame(keys, now, before);
      FilterSame(own, now, here);
      FilterAppend(keys, own, now);
      MapConcat(CheckLoads(e, init).1, CheckLevels(CheckLoads(e, init).0, last, Levels(last.scope)).1, KeyOf());
      hide Filter;
      hide Map;
      hide CheckLevels;
      hide Levels;
      hide Reached;
      hide ReachedIn;
      hide LevelKeys;
    }
  }

  /** The warnings of a check are, in the order of the configuration with the global scope first,
      exactly those of the keys that are reached. */
  lemma WarningsExactly(st: Store, c: Config)
    requires ProperConfig(c)
    ensures var loads := Loads(c, st.records);
      Map(Checked(st, c).1, KeyOf()) == Filter(AllKeys(loads), (key: Key) => Reached(loads, key))
  {
    ProperLoads(c, st.records);
    LoadsWarn(Edges(st.edges.fired, {}), Loads(c, st.records));
  }

  lemma MapConcat(a: seq<Warning>, b: seq<Warning>, f: Warning -> Key)
    ensures Map(a + b, f) == Map(a, f) + Map(b, f)
  {
    assert forall i :: 0 <= i < |a + b| ==> (a + b)[i] == if i < |a| then a[i] else b[i - |a|];
  }

  /** What a unit counts of one record. */
  ghost function Measured(unit: Unit, r: Record): real {
    match unit
    case Tokens => if r.total.Some? then r.total.value as real else 0.0
    case Requests => r.requests as real
    case EstimatedCost => if r.cost.Some? then r.cost.value else 0.0
  }

  ghost function Consumed(unit: Unit, rs: seq<Record>): real {
    if rs == [] then 0.0 else Consumed(unit, rs[..|rs| - 1]) + Measured(unit, rs[|rs| - 1])
  }

  lemma {:induction false} CumulativeExact(unit: Unit, rs: seq<Record>)
    ensures Cumulative(unit, Aggregate(rs)) == Consumed(unit, rs)
  {
    if rs != [] {
      CumulativeExact(unit, rs[..|rs| - 1]);
    }
  }

  /** The records use up the share of the scope's budget at which `level` warns: the threshold, 0.8
      unless another is given, or a critical share above it. */
  ghost predicate UsesUp(s: Scope, level: Level, rs: seq<Record>) {
    var warnAt := if s.threshold == None || s.threshold == Some(0.0) then 0.8 else s.threshold.value;
    var at := if level == Warn then warnAt else if s.critical.Some? then s.critical.value else 0.0;
    && (level == Critical ==> s.critical.Some? && s.critical.value > warnAt)
    && s.budget > 0.0 && s.budget * at > 0.0
    && Consumed(s.unit, rs) >= s.budget * at
  }

  lemma LevelJudges(name: string, s: Scope, rs: seq<Record>, key: Key)
    ensures ReachedIn(Load(name, s, Cumulative(s.unit, Aggregate(rs))), Levels(s), key) <==> key.scope == name && UsesUp(s, key.level, rs)
  {
    CumulativeExact(s.unit, rs);
    hide Cumulative;
    hide Aggregate;
    hide Consumed;
    var l, levels := Load(name, s, Cumulative(s.unit, Aggregate(rs))), Levels(s);
    assert levels[0].1 == Warn && (|levels| > 1 ==> levels[1] == (s.critical.value, Critical));
    if key.scope == name && UsesUp(s, key.level, rs) {
      var j := if key.level == Warn then 0 else 1;
      assert Key(l.name, levels[j].1) == key && Judged(l, levels[j].0) && Crossed(l, levels[j].0);
    }
  }

  /** Which total each budget judges: the global one all records, that of a provider the records of
      this provider, each by its own unit. */
  lemma ReachedExactly(c: Config, records: seq<Record>, key: Key)
    ensures Reached(Loads(c, records), key) <==>
      || (c.overall.Some? && key.scope == "global" && UsesUp(c.overall.value, key.level, records))
      || (exists i :: 0 <= i < |c.perProvider| && key.scope == c.perProvider[i].0 &&
            UsesUp(c.perProvider[i].1, key.level,
                   Filter(records, (r: Record) => (if r.provider == "" then "_unattributed" else r.provider) == c.perProvider[i].0)))
  {
    ReachedJoin(GlobalLoads(c, records), Map(c.perProvider, ProviderLoad(records)), key);
    ReachedGlobal(c, records, key);
    ReachedProviders(c, records, key);
    hide GlobalLoads;
    hide Map;
    hide Reached;
    hide UsesUp;
    hide Filter;
  }

  lemma ReachedJoin(first: seq<Load>, rest: seq<Load>, key: Key)
    ensures Reached(first + rest, key) <==> Reached(first, key) || Reached(rest, key)
  {
    hide ReachedIn;
    hide Levels;
    var loads := first + rest;
    if i :| 0 <= i < |first| && ReachedIn(first[i], Levels(first[i].scope), key) {
      assert ReachedIn(loads[i], Levels(loads[i].scope), key);
    }
    if i :| 0 <= i < |rest| && ReachedIn(rest[i], Levels(rest[i].scope), key) {
      assert ReachedIn(loads[|first| + i], Levels(loads[|first| + i].scope), key);
    }
  }

  lemma ReachedGlobal(c: Config, records: seq<Record>, key: Key)
    ensures Reached(GlobalLoads(c, records), key) <==>
      c.overall.Some? && key.scope == "global" && UsesUp(c.overall.value, key.level, records)
  {
    if c.overall.Some? {
      LevelJudges(GLOBAL, c.overall.value, records, key);
      assert GlobalLoads(c, records)[0].scope == c.overall.value;
    }
    hide Aggregate;
    hide Cumulative;
    hide Levels;
    hide ReachedIn;
    hide UsesUp;
  }

  lemma ReachedProviders(c: Config, records: seq<Record>, key: Key)
    ensures Reached(Map(c.perProvider, ProviderLoad(records)), key) <==>
      exists i :: 0 <= i < |c.perProvider| && key.scope == c.perProvider[i].0 &&
        UsesUp(c.perProvider[i].1, key.level,
               Filter(records, (r: Record) => (if r.provider == "" then "_unattributed" else r.provider) == c.perProvider[i].0))
  {
    var rest := Map(c.perProvider, ProviderLoad(records));
    forall i | 0 <= i < |rest|
      ensures ReachedIn(rest[i], Levels(rest[i].scope), key) <==>
        key.scope == c.perProvider[i].0 && UsesUp(c.perProvider[i].1, key.level,
          Filter(records, (r: Record) => (if r.provider == "" then "_unattributed" else r.provider) == c.perProvider[i].0))
    {
      var p := c.perProvider[i];
      FilterSame(records, From(p.0), (r: Record) => (if r.provider == "" then "_unattributed" else r.provider) == p.0);
      assert rest[i] == ProviderLoad(records)(p);
      LevelJudges(p.0, p.1, Group(records, p.0), key);
    }
    hide Filter;
    hide Map;
    hide Aggregate;
    hide Cumulative;
    hide Levels;
    hide ReachedIn;
    hide UsesUp;
  }

  /** Operations after which a crossing of `key` is no longer fresh, other than telling it. */
  predicate Forgets(op: Op, key: Key) {
    op.Check? || op == Acknowledge(key) || op.Reset? || (op.LoadSnapshot? && op.snapshot.Some?)
  }

  /** Operation `m` comes before anything after `i` forgets the crossing. */
  ghost predicate InTime(ops: seq<Op>, i: nat, m: nat, key: Key) {
    i <= m < |ops| && forall n :: i <= n < m ==> !Forgets(ops[n], key)
  }

  /** A fresh crossing stays fresh until it is told or forgotten. */
  lemma {:induction false} StaysFresh(st: Store, ops: seq<Op>, i: nat, m: nat, key: Key)
    requires i <= m <= |ops| && key in StateAt(st, ops, i).edges.pending
    requires forall n :: i <= n < m ==> !Forgets(ops[n], key) && ops[n] != Emit(key)
    ensures key in StateAt(st, ops, m).edges.pending
  {
    if i < m {
      StaysFresh(st, ops, i, m - 1, key);
      hide Checked;
    }
  }

  lemma {:induction false} FirstEmit(ops: seq<Op>, i: nat, m: nat, key: Key) returns (first: nat)
    requires i <= m < |ops| && ops[m] == Emit(key)
    ensures i <= first <= m && ops[first] == Emit(key) && forall n :: i <= n < first ==> ops[n] != Emit(key)
  {
    first := m;
    if n :| i <= n < m && ops[n] == Emit(key) {
      first := FirstEmit(ops, i, n, key);
    }
  }

  /** The listeners are told of a fresh crossing if and only if an `emit_warning` of its key comes
      before the next check, acknowledgement, reset or snapshot load. */
  lemma ToldExactly(st: Store, ops: seq<Op>, i: nat, key: Key)
    requires i <= |ops| && key in StateAt(st, ops, i).edges.pending
    ensures (exists m: nat :: InTime(ops, i, m, key) && Notifies(StateAt(st, ops, m), ops[m], key)) <==>
            (exists m: nat :: InTime(ops, i, m, key) && ops[m] == Emit(key))
  {
    hide StateAt;
    hide Forgets;
    if m: nat :| InTime(ops, i, m, key) && ops[m] == Emit(key) {
      var first := FirstEmit(ops, i, m, key);
      StaysFresh(st, ops, i, first, key);
      assert InTime(ops, i, first, key) && Notifies(StateAt(st, ops, first), ops[first], key);
    }
  }

  /** A crossing that was not announced before the next check is lost for good: whatever that
      check finds, announcing the key then tells nobody. */
  lemma LateAnnouncementIsLost(st: Store, given: Option<Config>, key: Key)
    requires PendingFired(st.edges) && key in st.edges.pending && ProperConfig(if given.Some? then given.value else st.config)
    ensures !Notifies(Apply(st, Check(given)), Emit(key), key)
  {
    CheckExact(st, given, key);
    hide Apply;
    hide Loads;
  }

  // ------------------------------------------------------------------- the wrapper's callbacks

  ghost predicate Warns(warnings: seq<Warning>, key: Key) { exists w :: w in warnings && w.key == key }

  /** What announcing the warnings comes to. */
  ghost predicate Announced(seen: set<Key>, e: Edges, warnings: seq<Warning>, seen1: set<Key>, e1: Edges, told: seq<Key>) {
    && Distinct(told) && (forall key :: key in told ==> key !in seen)
    && (forall key :: key in seen1 <==> key in seen || key in told)
    && e1.fired == e.fired && (forall key :: key in e1.pending <==> key in e.pending && key !in told)
    && (forall w :: w in warnings ==> w.key in seen1)
    && (forall key :: key in told <==> key !in seen && Warns(warnings, key))
  }

  lemma AnnouncedNothing(seen: set<Key>, e: Edges)
    ensures Announced(seen, e, [], seen, e, [])
  {
  }

  lemma WarnsMore(warnings: seq<Warning>, w: Warning, key: Key)
    ensures Warns(warnings + [w], key) <==> Warns(warnings, key) || w.key == key
  {
    assert w in warnings + [w];
    assert forall x :: x in warnings ==> x in warnings + [w];
  }

  lemma AnnouncedMore(seen: set<Key>, e: Edges, warnings: seq<Warning>, w: Warning, seen1: set<Key>, e1: Edges, told: seq<Key>)
    requires Announced(seen, e, warnings, seen1, e1, told)
    ensures w.key in seen1 ==> Announced(seen, e, warnings + [w], seen1, e1, told)
    ensures w.key !in seen1 ==> Announced(seen, e, warnings + [w], seen1 + {w.key}, Discard(e1, w.key), told + [w.key])
  {
    forall key
      ensures Warns(warnings + [w], key) <==> Warns(warnings, key) || w.key == key
    {
      WarnsMore(warnings, w, key);
    }
    hide Warns;
  }

  lemma {:induction false} AnnounceAll(seen: set<Key>, e: Edges, warnings: seq<Warning>)
    ensures var (seen1, e1, told) := Announce(seen, e, warnings); Announced(seen, e, warnings, seen1, e1, told)
  {
    hide Announced;
    if warnings == [] {
      AnnouncedNothing(seen, e);
    } else {
      var init, last := warnings[..|warnings| - 1], warnings[|warnings| - 1];
      assert warnings == init + [last];
      AnnounceAll(seen, e, init);
      var (seen1, e1, told) := Announce(seen, e, init);
      AnnouncedMore(seen, e, init, last, seen1, e1, told);
    }
  }

  lemma AnnounceOnce(seen: set<Key>, e: Edges, warnings: seq<Warning>)
    ensures var (seen1, e1, told) := Announce(seen, e, warnings);
      && Distinct(told) && (forall key :: key in told ==> key !in seen)
      && (forall key :: key in seen1 <==> key in seen || key in told)
      && e1.fired == e.fired && (forall key :: key in e1.pending <==> key in e.pending && key !in told)
      && (forall w :: w in warnings ==> w.key in seen1)
      && (forall key :: key in told <==> key !in seen && Warns(warnings, key))
  {
    AnnounceAll(seen, e, warnings);
    hide Announce;
    hide Warns;
    hide Distinct;
  }

  /** The wrapper announces what it has not announced before, in the order of the warnings. */
  lemma {:induction false} AnnouncedInOrder(seen: set<Key>, e: Edges, warnings: seq<Warning>)
    requires Distinct(Map(warnings, KeyOf()))
    ensures Announce(seen, e, warnings).2 == Filter(Map(warnings, KeyOf()), (key: Key) => key !in seen)
  {
    hide *;
    if warnings == [] {
      NothingToAnnounce(seen, e);
    } else {
      var n := |warnings| - 1;
      var init, last := warnings[..n], warnings[n];
      assert warnings == init + [last];
      LastKeyNew(warnings);
      AnnouncedInOrder(seen, e, init);
      AnnounceOnce(seen, e, init);
      AnnounceStep(seen, e, init, last);
      KeysMore(init, last, (key: Key) => key !in seen);
      var told := Announce(seen, e, init).2;
      assert told + [] == told;
    }
  }

  lemma NothingToAnnounce(seen: set<Key>, e: Edges)
    ensures Announce(seen, e, []).2 == Filter(Map([], KeyOf()), (key: Key) => key !in seen)
  {
  }

  lemma AnnounceStep(seen: set<Key>, e: Edges, init: seq<Warning>, last: Warning)
    ensures var (seen1, _, told) := Announce(seen, e, init);
      Announce(seen, e, init + [last]).2 == told + if last.key in seen1 then [] else [last.key]
  {
    assert (init + [last])[..|init|] == init;
  }

  lemma LastKeyNew(warnings: seq<Warning>)
    requires warnings != [] && Distinct(Map(warnings, KeyOf()))
    ensures var init := warnings[..|warnings| - 1];
      Distinct(Map(init, KeyOf())) && !Warns(init, warnings[|warnings| - 1].key)
  {
    var init := warnings[..|warnings| - 1];
    assert forall i :: 0 <= i < |init| ==> Map(warnings, KeyOf())[i] == init[i].key;
    assert Map(warnings, KeyOf())[|init|] == warnings[|init|].key;
    hide Map;
  }

  lemma KeysMore(init: seq<Warning>, last: Warning, p: Key -> bool)
    ensures Filter(Map(init + [last], KeyOf()), p) == Filter(Map(init, KeyOf()), p) + if p(last.key) then [last.key] else []
  {
    MapAppend(init, last, KeyOf());
    FilterAppend(Map(init, KeyOf()), [last.key], p);
    FilterOne(last.key, p);
    hide Filter;
    hide Map;
  }

  /** A metered call as the wrapper sees it: the store it finds, and what it records. */
  datatype Metered = Metered(st: Store, r: Record, merged: Config)

  function CallbacksOf(seen: set<Key>, m: Metered): (set<Key>, seq<Key>) {
    var (checked, warnings) := Checked(m.st.(records := m.st.records + [m.r]), m.merged);
    var (seen1, _, told) := Announce(seen, checked.edges, warnings);
    (seen1, told)
  }

  /** All callbacks of a wrapper over its life, whatever happens to the store between calls. */
  function Callbacks(calls: seq<Metered>): (set<Key>, seq<Key>) {
    if calls == [] then ({}, [])
    else
      var (seen, told) := Callbacks(calls[..|calls| - 1]);
      var (seen1, more) := CallbacksOf(seen, calls[|calls| - 1]);
      (seen1, told + more)
  }

  /** Through one wrapper each (scope, level) callback is made at most once, ever: an
      acknowledgement, a reset or a drop below the threshold does not re-arm it. */
  lemma {:induction false} CallbackOnceEver(calls: seq<Metered>)
    ensures var (seen, told) := Callbacks(calls); Distinct(told) && forall key :: key in seen <==> key in told
  {
    hide Checked;
    if calls != [] {
      CallbackOnceEver(calls[..|calls| - 1]);
      var (seen, told) := Callbacks(calls[..|calls| - 1]);
      var m := calls[|calls| - 1];
      var (checked, warnings) := Checked(m.st.(records := m.st.records + [m.r]), m.merged);
      AnnounceOnce(seen, checked.edges, warnings);
      DistinctJoin(told, Announce(seen, checked.edges, warnings).2);
      hide Announce;
      hide Distinct;
    }
  }

  /** A wrapper announces, of the warnings of a check, exactly the keys it never announced; the
      store's fresh crossings of the others stay untold. */
  lemma SecondCrossingIsSilent(seen: set<Key>, e: Edges, warnings: seq<Warning>, key: Key)
    ensures var (_, e1, told) := Announce(seen, e, warnings);
      && (key in told <==> key !in seen && Warns(warnings, key))
      && (key in e1.pending <==> key in e.pending && key !in told)
  {
    AnnounceOnce(seen, e, warnings);
    hide Announce;
  }

  /** The warnings the wrapper sees in a metered call. */
  function WarningsOf(m: Metered): seq<Warning> { Checked(m.st.(records := m.st.records + [m.r]), m.merged).1 }

  lemma {:induction false} SeenExactly(calls: seq<Metered>, key: Key)
    ensures key in Callbacks(calls).0 <==> exists j :: 0 <= j < |calls| && Warns(WarningsOf(calls[j]), key)
  {
    hide Checked;
    if calls != [] {
      var n := |calls| - 1;
      var init := calls[..n];
      SeenExactly(init, key);
      var m := calls[n];
      var (checked, warnings) := Checked(m.st.(records := m.st.records + [m.r]), m.merged);
      AnnounceOnce(Callbacks(init).0, checked.edges, warnings);
      hide Announce;
      assert forall j :: 0 <= j < n ==> init[j] == calls[j];
      assert key in Callbacks(calls).0 <==> key in Callbacks(init).0 || Warns(WarningsOf(m), key);
      hide Callbacks;
      hide Warns;
      if key in Callbacks(calls).0 && !Warns(WarningsOf(m), key) {
        var j :| 0 <= j < |init| && Warns(WarningsOf(init[j]), key);
        assert calls[j] == init[j];
      }
    }
  }

  /** The callbacks of call `i` are exactly the keys that warn in it and in no earlier call of the
      same wrapper, whatever happened to the store in between. */
  lemma CallbacksExactly(calls: seq<Metered>, i: nat, key: Key)
    requires i < |calls|
    ensures key in CallbacksOf(Callbacks(calls[..i]).0, calls[i]).1 <==>
      Warns(WarningsOf(calls[i]), key) && forall j :: 0 <= j < i ==> !Warns(WarningsOf(calls[j]), key)
  {
    hide Checked;
    var seen := Callbacks(calls[..i]).0;
    SeenExactly(calls[..i], key);
    assert forall j :: 0 <= j < i ==> calls[..i][j] == calls[j];
    var m := calls[i];
    var (checked, warnings) := Checked(m.st.(records := m.st.records + [m.r]), m.merged);
    AnnounceOnce(seen, checked.edges, warnings);
    hide Announce;
    hide Callbacks;
    hide Warns;
    if exists j :: 0 <= j < i && Warns(WarningsOf(calls[j]), key) {
      var j :| 0 <= j < i && Warns(WarningsOf(calls[j]), key);
      assert Warns(WarningsOf(calls[..i][j]), key);
    }
  }

  /** The store after a metered call. */
  function AfterCall(seen: set<Key>, m: Metered): Store {
    var (checked, warnings) := Checked(m.st.(records := m.st.records + [m.r]), m.merged);
    checked.(edges := Announce(seen, checked.edges, warnings).1)
  }

  /** A budget of one request that warns at a half. */
  function OneRequest(): Config { Config(Some(Scope(1.0, Requests, Some(0.5), None)), []) }

  function Asking(n: int): Record { Record("p", None, None, None, n, None, false) }

  lemma OneRequestChecked(records: seq<Record>, e: Edges)
    requires Key(GLOBAL, Warn) !in e.fired
    ensures var key := Key(GLOBAL, Warn);
      var (st, warnings) := Checked(Store(records, OneRequest(), e), OneRequest());
      if Aggregate(records).requests >= 1
      then warnings == [Warning(key, 0.5, 1.0, Aggregate(records).requests as real)] && st.edges == Edges(e.fired + {key}, {key})
      else warnings == [] && st.edges == Edges(e.fired, {})
  {
    hide Aggregate;
    var n := Aggregate(records).requests as real;
    var load := Load(GLOBAL, OneRequest().overall.value, n);
    assert Loads(OneRequest(), records) == [load];
    assert [load][..0] == [];
    assert Levels(load.scope) == [(0.5, Warn)];
    assert [(0.5, Warn)][..0] == [];
    var e0 := Edges(e.fired, {});
    assert CheckLevels(e0, load, []) == (e0, []) && CheckLoads(e0, []) == (e0, []);
    var more := CheckLevels(e0, load, Levels(load.scope)).1;
    assert [] + more == more;
    assert CheckLevels(e0, load, Levels(load.scope)) == CheckLoads(e0, [load]);
  }

  lemma AskedFor(n: int)
    ensures Aggregate([Asking(n)]).requests == n && Aggregate([Asking(n), Asking(1)]).requests == n + 1
  {
    assert [Asking(n), Asking(1)][..1] == [Asking(n)];
  }

  /** One call against that budget, when no warning was active. */
  lemma OneCall(seen: set<Key>, m: Metered)
    requires m.merged == m.st.config == OneRequest() && m.st.edges == NO_EDGES
    ensures var key := Key(GLOBAL, Warn);
      var crosses := Aggregate(m.st.records + [m.r]).requests >= 1;
      && (Warns(WarningsOf(m), key) <==> crosses)
      && AfterCall(seen, m).config == OneRequest()
      && (!crosses ==> AfterCall(seen, m) == Store(m.st.records + [m.r], OneRequest(), NO_EDGES))
      && (crosses && key in seen ==> key in AfterCall(seen, m).edges.pending)
  {
    OneRequestChecked(m.st.records + [m.r], NO_EDGES);
    var (checked, warnings) := Checked(m.st.(records := m.st.records + [m.r]), m.merged);
    AnnounceOnce(seen, checked.edges, warnings);
    assert {} + {Key(GLOBAL, Warn)} == {Key(GLOBAL, Warn)};
    hide Aggregate;
    hide OneRequest;
    hide Checked;
    if warnings == [] {
      assert Announce(seen, checked.edges, warnings) == (seen, checked.edges, []);
    }
    hide Announce;
  }

  /** Three calls through one wrapper: the first crosses the budget, the store is reset, the second
      stays below, the third crosses again. It is a fresh crossing, and nobody is told. */
  lemma CrossDropCross() returns (calls: seq<Metered>, key: Key)
    ensures |calls| == 3
    ensures calls[1].st == Apply(AfterCall({}, calls[0]), Reset) && calls[2].st == AfterCall(Callbacks(calls[..1]).0, calls[1])
    ensures Warns(WarningsOf(calls[0]), key) && !Warns(WarningsOf(calls[1]), key) && Warns(WarningsOf(calls[2]), key)
    ensures key in AfterCall(Callbacks(calls[..2]).0, calls[2]).edges.pending
    ensures key !in CallbacksOf(Callbacks(calls[..2]).0, calls[2]).1
  {
    key := Key(GLOBAL, Warn);
    var empty := Store([], OneRequest(), NO_EDGES);
    var first := Metered(empty, Asking(1), OneRequest());
    var second := Metered(empty, Asking(0), OneRequest());
    AskedFor(1);
    AskedFor(0);
    hide Aggregate;
    hide OneRequest;
    hide Asking;
    hide AfterCall;
    hide WarningsOf;
    hide Callbacks;
    hide CallbacksOf;
    assert [] + [Asking(1)] == [Asking(1)] && [] + [Asking(0)] == [Asking(0)] && [Asking(0)] + [Asking(1)] == [Asking(0), Asking(1)];
    var seen := Callbacks([first]).0;
    OneCall({}, first);
    OneCall(seen, second);
    var third := Metered(AfterCall(seen, second), Asking(1), OneRequest());
    calls := [first, second, third];
    assert calls[..1] == [first] && calls[..2] == [first, second];
    OneCall(Callbacks([first, second]).0, third);
    SeenExactly([first, second], key);
    assert Warns(WarningsOf([first, second][0]), key);
    CallbacksExactly(calls, 2, key);
  }

  // ------------------------------------------------------------------- conservation

  function SumTokens(rs: seq<Record>, providers: seq<string>): int {
    if providers == [] then 0
    else SumTokens(rs, providers[..|providers| - 1]) + Aggregate(Group(rs, providers[|providers| - 1])).tokens
  }

  function SumCost(rs: seq<Record>, providers: seq<string>): real {
    if providers == [] then 0.0
    else SumCost(rs, providers[..|providers| - 1]) + Spent(Aggregate(Group(rs, providers[|providers| - 1])).cost)
  }

  lemma {:induction false} SumStep(rs: seq<Record>, r: Record, providers: seq<string>)
    requires Distinct(providers)
    ensures SumTokens(rs + [r], providers) ==
            SumTokens(rs, providers) + if ProviderOf(r) in providers then Known(r.total) else 0
    ensures SumCost(rs + [r], providers) ==
            SumCost(rs, providers) + if ProviderOf(r) in providers then Spent(r.cost) else 0.0
  {
    hide Group;
    hide ProviderOf;
    if providers != [] {
      var init, last := providers[..|providers| - 1], providers[|providers| - 1];
      SumStep(rs, r, init);
      GroupSnoc(rs, r, last);
      assert providers == init + [last] && last !in init;
      var group := Group(rs, last);
      assert (group + [r])[..|group|] == group && group + [] == group;
    }
  }

  /** The provider totals add up to the global ones, for any list of distinct providers that
      covers the records. */
  lemma {:induction false} TotalsConserved(rs: seq<Record>, providers: seq<string>)
    requires Distinct(providers) && forall r :: r in rs ==> ProviderOf(r) in providers
    ensures SumTokens(rs, providers) == Aggregate(rs).tokens && SumCost(rs, providers) == Spent(Aggregate(rs).cost)
  {
    hide ProviderOf;
    if rs == [] {
      EmptySums(providers);
    } else {
      var init, last := rs[..|rs| - 1], rs[|rs| - 1];
      TotalsConserved(init, providers);
      SumStep(init, last, providers);
      assert rs == init + [last];
    }
  }

  lemma {:induction false} EmptySums(providers: seq<string>)
    ensures SumTokens([], providers) == 0 && SumCost([], providers) == 0.0
  {
    if providers != [] {
      EmptySums(providers[..|providers| - 1]);
    }
  }
}
