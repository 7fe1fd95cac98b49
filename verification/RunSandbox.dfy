/** Orchestrator and sandbox together: the calls of a run replayed against the adapter. */
module RunSandbox {
  import opened Sequences
  import opened Gate
  import opened StepIds
  import opened Orchestrator
  import opened RunSafety
  import opened RunCalls
  import opened Sandbox

  /** One deployment: the shell, the digest, the run's trace. */
  datatype Site = Site(sh: Shell, sha: string -> string, trace: string)

  function Effect(site: Site, b: Box, c: Call): Box {
    match c
    case Llm(_, _) => b
    case Branch(_, d, parentTag, reply) =>
      if reply.reached then RunBranch(site.sh, site.sha, b, site.trace, d, parentTag).0 else b
    case Rollback(_, tag, _, reached) => if reached then RollbackTag(b, tag) else b
  }

  function Replay(site: Site, b: Box, calls: seq<Call>): Box {
    if calls == [] then b else Effect(site, Replay(site, b, calls[..|calls| - 1]), calls[|calls| - 1])
  }

  /** An answer the orchestrator received is the adapter's own; answers may be lost. */
  ghost predicate TrueReply(site: Site, b: Box, c: Call) {
    c.Branch? && c.reply.run.Some? ==>
      c.reply.reached && c.reply.run == RunBranch(site.sh, site.sha, b, site.trace, c.diff, c.parentTag).1
  }

  ghost predicate Faithful(site: Site, b: Box, calls: seq<Call>) {
    calls == [] ||
    (Faithful(site, b, calls[..|calls| - 1]) && TrueReply(site, Replay(site, b, calls[..|calls| - 1]), calls[|calls| - 1]))
  }

  lemma {:induction false} ReplaySplit(site: Site, b: Box, first: seq<Call>, rest: seq<Call>)
    ensures Replay(site, b, first + rest) == Replay(site, Replay(site, b, first), rest)
    ensures Faithful(site, b, first + rest) ==>
      Faithful(site, b, first) && Faithful(site, Replay(site, b, first), rest)
    decreases |rest|
  {
    if rest == [] {
      assert first + rest == first;
    } else {
      var init, c := rest[..|rest| - 1], rest[|rest| - 1];
      ReplaySplit(site, b, first, init);
      assert (first + rest)[..|first + rest| - 1] == first + init;
    }
  }

  function CallTag(site: Site, c: Call): Option<string> {
    match c
    case Llm(_, _) => None
    case Branch(_, d, _, _) => Some(BranchTag(site.trace, d.stepId))
    case Rollback(_, tag, _, _) => Some(tag)
  }

  ghost predicate Touches(site: Site, calls: seq<Call>, t: string) {
    exists c :: c in calls && CallTag(site, c) == Some(t)
  }

  lemma EffectKeeps(site: Site, b: Box, c: Call)
    requires Clean(b)
    ensures Clean(Effect(site, b, c))
    ensures forall t :: CallTag(site, c) != Some(t) ==> SameTag(b, Effect(site, b, c), t)
  {
    match c
    case Branch(_, d, parentTag, _) => BranchKeeps(site.sh, site.sha, b, site.trace, d, parentTag);
    case Rollback(_, tag, _, _) => RollbackKeeps(b, tag);
    case _ =>
  }

  /** Calls keep the box clean and leave every tag alone that they do not name. */
  lemma {:induction false} ReplayKeeps(site: Site, b: Box, calls: seq<Call>, t: string)
    requires Clean(b)
    ensures Clean(Replay(site, b, calls))
    ensures !Touches(site, calls, t) ==> SameTag(b, Replay(site, b, calls), t)
  {
    if calls != [] {
      var init, c := calls[..|calls| - 1], calls[|calls| - 1];
      ReplayKeeps(site, b, init, t);
      EffectKeeps(site, Replay(site, b, init), c);
      assert c in calls;
      assert Touches(site, init, t) ==> Touches(site, calls, t);
      hide Clean;
    }
  }

  // ------------------------------------------------------------------- one step

  /** No branch tag of any attempt is the baseline tag. */
  ghost predicate SparesBaseline(o: Oracle, site: Site) {
    forall n, second :: Attempted(o, n, second).Some? ==>
      BranchTag(site.trace, Attempted(o, n, second).value.stepId) != BaselineTag(site.trace)
  }

  /** The candidate ids of different plan steps differ. */
  ghost predicate Apart(o: Oracle) {
    forall n, m, s, t :: n != m && Attempted(o, n, s).Some? && Attempted(o, m, t).Some? ==>
      Attempted(o, n, s).value.stepId != Attempted(o, m, t).value.stepId
  }

  /** Tags a step may name: those of its own attempts, and the placeholder of a lost answer. */
  ghost predicate TagOf(o: Oracle, site: Site, n: nat, t: string) {
    || t == "unknown"
    || exists second :: Attempted(o, n, second).Some? && t == BranchTag(site.trace, Attempted(o, n, second).value.stepId)
  }

  lemma TagsApart(o: Oracle, site: Site, n: nat, m: nat, second: bool)
    requires Apart(o) && n != m && Attempted(o, m, second).Some?
    ensures !TagOf(o, site, n, BranchTag(site.trace, Attempted(o, m, second).value.stepId))
  {
    var id := Attempted(o, m, second).value.stepId;
    UnknownIsNoTag(site.trace, id);
    if s :| Attempted(o, n, s).Some? && BranchTag(site.trace, id) == BranchTag(site.trace, Attempted(o, n, s).value.stepId) {
      BranchTagsInjective(site.trace, id, Attempted(o, n, s).value.stepId);
    }
  }

  /** What a run may fork from: the baseline tag, or the placeholder when the baseline failed. */
  predicate Parent(site: Site, t: string) { t == BaselineTag(site.trace) || t == NO_BASELINE }

  lemma ParentApart(o: Oracle, site: Site, n: nat, t: string)
    requires SparesBaseline(o, site) && Parent(site, t)
    ensures !TagOf(o, site, n, t)
  {
    UnknownIsNoTag(site.trace, "");
    assert NO_BASELINE[0] != 'm' && NO_BASELINE[0] != 'u' && "unknown"[0] == 'u';
    forall id
      ensures BranchTag(site.trace, id) != NO_BASELINE
    {
      assert BranchTag(site.trace, id)[0] == 'm';
    }
  }

  lemma ReplayOne(site: Site, b: Box, calls: seq<Call>, k: nat)
    requires k < |calls|
    ensures Replay(site, b, calls[..k + 1]) == Effect(site, Replay(site, b, calls[..k]), calls[k])
    ensures Faithful(site, b, calls[..k + 1]) ==>
      Faithful(site, b, calls[..k]) && TrueReply(site, Replay(site, b, calls[..k]), calls[k])
  {
    assert calls[..k + 1][..k] == calls[..k];
  }

  /** What the sandbox answered to the `k`-th call of a step. */
  lemma {:induction false} FaithfulAt(site: Site, b: Box, calls: seq<Call>, k: nat)
    requires Faithful(site, b, calls) && k < |calls|
    ensures TrueReply(site, Replay(site, b, calls[..k]), calls[k])
    decreases |calls| - k
  {
    FaithfulPrefix(site, b, calls, k + 1);
    ReplayOne(site, b, calls, k);
  }

  lemma {:induction false} FaithfulPrefix(site: Site, b: Box, calls: seq<Call>, k: nat)
    requires Faithful(site, b, calls) && k <= |calls|
    ensures Faithful(site, b, calls[..k])
    decreases |calls|
  {
    if k == |calls| {
      assert calls[..k] == calls;
    } else {
      FaithfulPrefix(site, b, calls[..|calls| - 1], k);
      assert calls[..|calls| - 1][..k] == calls[..k];
    }
  }

  /** An answered verification reports the tag of its diff. */
  lemma ReplyTag(site: Site, b: Box, calls: seq<Call>, k: nat)
    requires Faithful(site, b, calls) && k < |calls| && calls[k].Branch? && calls[k].reply.run.Some?
    ensures calls[k].reply.run.value.branchTag == BranchTag(site.trace, calls[k].diff.stepId)
  {
    FaithfulAt(site, b, calls, k);
    hide Replay;
    hide BranchTag;
  }

  /** A faithful step names only its own tags. */
  lemma StepTags(o: Oracle, site: Site, b: Box, n: nat, parentTag: string, calls: seq<Call>, out: StepOutcome, t: string)
    requires CallShape(o, site.sha, n, parentTag, calls, out) && Faithful(site, b, calls)
    requires Touches(site, calls, t)
    ensures TagOf(o, site, n, t)
  {
    hide Faithful;
    hide BranchTag;
    hide GreenBuild;
    var c :| c in calls && CallTag(site, c) == Some(t);
    var k :| 0 <= k < |calls| && calls[k] == c;
    assert forall i :: 2 <= i < |calls| ==> calls[i] == calls[2..][i - 2];
    if (k == 2 || k == 5) && calls[k - 1].reply.run.Some? {
      ReplyTag(site, b, calls, k - 1);
    }
  }

  /** The tag of an accepted diff names exactly the baseline's files with the patch applied, on
      which the tests exited with 0. */
  ghost predicate Holds(site: Site, b: Box, parent: Tree, d: Candidate) {
    var tag := BranchTag(site.trace, d.stepId);
    tag in b.tags && b.tags[tag].dir in b.dirs && TestedGreen(site.sh, parent, d.unifiedDiff, b.dirs[b.tags[tag].dir])
  }

  lemma StepHolds(o: Oracle, site: Site, b: Box, parentTag: string, n: nat, calls: seq<Call>, out: StepOutcome)
    requires SparesBaseline(o, site) && Parent(site, parentTag) && Clean(b) && Faithful(site, b, calls)
    requires CallShape(o, site.sha, n, parentTag, calls, out) && out.StepDone? && out.accept
    ensures Accepts(out) && Holds(site, Replay(site, b, calls), Forked(b, parentTag), out.diff.value)
    ensures exists second :: Attempted(o, n, second) == out.diff
  {
    assert forall i :: 2 <= i < |calls| ==> calls[i] == calls[2..][i - 2];
    var k := |calls| - 1;
    assert k == 1 || k == 4;
    var d := calls[k].diff;
    FaithfulAt(site, b, calls, k);
    FaithfulPrefix(site, b, calls, k);
    ReplayKeeps(site, b, calls[..k], parentTag);
    if Touches(site, calls[..k], parentTag) {
      assert Touches(site, calls, parentTag);
      StepTags(o, site, b, n, parentTag, calls, out, parentTag);
      ParentApart(o, site, n, parentTag);
    }
    assert Attempted(o, n, k == 4) == out.diff;
    BranchReports(site.sh, site.sha, Replay(site, b, calls[..k]), site.trace, d, parentTag);
  }

  // ------------------------------------------------------------------- the segments of a run

  lemma {:induction false} FlattenPrefix(segs: seq<seq<Call>>, n: nat)
    requires n <= |segs|
    ensures Flatten(segs[..n]) <= Flatten(segs)
    decreases |segs|
  {
    if n == |segs| {
      assert segs[..n] == segs;
    } else {
      FlattenPrefix(segs[..|segs| - 1], n);
      assert segs[..|segs| - 1][..n] == segs[..n];
    }
  }

  /** Step `n` starts where the steps before it ended. */
  lemma SegmentAt(site: Site, b0: Box, segs: seq<seq<Call>>, n: nat)
    requires n < |segs| && Faithful(site, b0, Flatten(segs))
    ensures var before, done := Flatten(segs[..n]), Flatten(segs[..n + 1]);
      && done == before + segs[n] && done <= Flatten(segs)
      && Faithful(site, b0, before) && Faithful(site, Replay(site, b0, before), segs[n])
      && Replay(site, b0, done) == Replay(site, Replay(site, b0, before), segs[n])
  {
    hide Faithful;
    var before, done := Flatten(segs[..n]), Flatten(segs[..n + 1]);
    assert segs[..n + 1] == segs[..n] + [segs[n]];
    FlattenAppend(segs[..n], segs[n]);
    FlattenPrefix(segs, n + 1);
    FaithfulPrefix(site, b0, Flatten(segs), |done|);
    assert Flatten(segs)[..|done|] == done;
    ReplaySplit(site, b0, before, segs[n]);
  }

  /** A call made after step `n` belongs to a later step. */
  lemma {:induction false} LaterCalls(segs: seq<seq<Call>>, n: nat, c: Call) returns (m: nat)
    requires n < |segs| && Flatten(segs[..n + 1]) <= Flatten(segs)
    requires c in Flatten(segs)[|Flatten(segs[..n + 1])|..]
    ensures n < m < |segs| && c in segs[m]
    decreases |segs|
  {
    var last := |segs| - 1;
    assert segs[..|segs|] == segs;
    if n == last {
      assert false;
    } else {
      m := last;
      if c !in segs[last] {
        FlattenPrefix(segs[..last], n + 1);
        assert segs[..last][..n + 1] == segs[..n + 1];
        assert Flatten(segs)[|Flatten(segs[..n + 1])|..] == Flatten(segs[..last])[|Flatten(segs[..n + 1])|..] + segs[last];
        m := LaterCalls(segs[..last], n, c);
      }
    }
  }

  /** The calls of a run, lost answers and raised errors included, touch only tags of their own
      steps. */
  lemma {:induction false} RunTags(o: Oracle, site: Site, b0: Box, parentTag: string, segs: seq<seq<Call>>,
                                   outs: seq<StepOutcome>, t: string)
    requires Segmented(o, site.sha, parentTag, segs, outs) && Faithful(site, b0, Flatten(segs))
    requires forall n :: 0 <= n < |segs| ==> !TagOf(o, site, n, t)
    ensures !Touches(site, Flatten(segs), t)
    decreases |segs|
  {
    hide CallShape;
    hide Faithful;
    hide TagOf;
    if segs != [] {
      var n := |segs| - 1;
      SegmentAt(site, b0, segs, n);
      assert segs[..n + 1] == segs;
      RunTags(o, site, b0, parentTag, segs[..n], outs[..n], t);
      TouchesSplit(site, Flatten(segs[..n]), segs[n], t);
      if Touches(site, segs[n], t) {
        StepTags(o, site, Replay(site, b0, Flatten(segs[..n])), n, parentTag, segs[n], outs[n], t);
      }
    }
  }

  lemma TouchesSplit(site: Site, first: seq<Call>, rest: seq<Call>, t: string)
    ensures Touches(site, first + rest, t) <==> Touches(site, first, t) || Touches(site, rest, t)
  {
    if Touches(site, first, t) {
      var c :| c in first && CallTag(site, c) == Some(t);
      assert c in first + rest;
    }
    if Touches(site, rest, t) {
      var c :| c in rest && CallTag(site, c) == Some(t);
      assert c in first + rest;
    }
  }

  lemma SameFork(b: Box, c: Box, t: string)
    requires SameTag(b, c, t)
    ensures Forked(b, t) == Forked(c, t)
  {
  }

  /** Calls that do not name the tag of a held diff leave it held. */
  lemma StillHolds(site: Site, b: Box, calls: seq<Call>, parent: Tree, d: Candidate)
    requires Clean(b) && Holds(site, b, parent, d) && !Touches(site, calls, BranchTag(site.trace, d.stepId))
    ensures Holds(site, Replay(site, b, calls), parent, d)
  {
    ReplayKeeps(site, b, calls, BranchTag(site.trace, d.stepId));
    hide Replay;
  }

  // ------------------------------------------------------------------- what holds at every moment

  /** After step `n` was accepted, none of the calls in `calls` named its tag again. */
  ghost predicate Undisturbed(site: Site, segs: seq<seq<Call>>, outs: seq<StepOutcome>, n: nat, calls: seq<Call>)
    requires n < |segs| == |outs|
  {
    var done := Flatten(segs[..n + 1]);
    && Accepts(outs[n]) && done <= calls
    && !Touches(site, calls[|done|..], BranchTag(site.trace, outs[n].diff.value.stepId))
  }

  lemma HeldAtOnce(o: Oracle, site: Site, b0: Box, parentTag: string, segs: seq<seq<Call>>, outs: seq<StepOutcome>, n: nat)
    requires SparesBaseline(o, site) && Parent(site, parentTag) && Clean(b0)
    requires Segmented(o, site.sha, parentTag, segs, outs) && Faithful(site, b0, Flatten(segs))
    requires n < |segs| && Accepts(outs[n])
    ensures Holds(site, Replay(site, b0, Flatten(segs[..n + 1])), Forked(b0, parentTag), outs[n].diff.value)
  {
    var before := Flatten(segs[..n]);
    SegmentAt(site, b0, segs, n);
    hide Faithful;
    hide Holds;
    hide Clean;
    hide CallShape;
    hide Flatten;
    hide Replay;
    hide SparesBaseline;
    hide Parent;
    hide TagOf;
    ReplayKeeps(site, b0, before, parentTag);
    forall m: nat | m < n
      ensures !TagOf(o, site, m, parentTag)
    {
      ParentApart(o, site, m, parentTag);
    }
    RunTags(o, site, b0, parentTag, segs[..n], outs[..n], parentTag);
    SameFork(b0, Replay(site, b0, before), parentTag);
    StepHolds(o, site, Replay(site, b0, before), parentTag, n, segs[n], outs[n]);
  }

  lemma HeldAfter(o: Oracle, site: Site, b0: Box, parentTag: string, segs: seq<seq<Call>>, outs: seq<StepOutcome>,
                  n: nat, calls: seq<Call>)
    requires SparesBaseline(o, site) && Parent(site, parentTag) && Clean(b0)
    requires Segmented(o, site.sha, parentTag, segs, outs) && Faithful(site, b0, Flatten(segs))
    requires n < |segs| && Undisturbed(site, segs, outs, n, calls)
    ensures Holds(site, Replay(site, b0, calls), Forked(b0, parentTag), outs[n].diff.value)
  {
    SegmentCount(o, site.sha, parentTag, segs, outs);
    hide Segmented;
    hide Faithful;
    hide Holds;
    hide Clean;
    hide Replay;
    hide Flatten;
    hide SparesBaseline;
    hide Parent;
    hide Touches;
    var done := Flatten(segs[..n + 1]);
    HeldAtOnce(o, site, b0, parentTag, segs, outs, n);
    ReplayKeeps(site, b0, done, parentTag);
    assert calls == done + calls[|done|..];
    ReplaySplit(site, b0, done, calls[|done|..]);
    StillHolds(site, Replay(site, b0, done), calls[|done|..], Forked(b0, parentTag), outs[n].diff.value);
  }

  lemma ParentOfRun(o: Oracle, site: Site, valid: bool, title: string, cap: int)
    requires o.baselineTag == BaselineTag(site.trace)
    ensures Parent(site, ParentTag(o, valid, title, cap))
  {
    hide OpenTicket;
    hide AskPhase;
    hide PackContext;
    hide MakePlan;
    hide BaselineTag;
  }

  /** At every moment of every run, returned or thrown, whatever calls or answers were lost on
      the way: the box is clean, the baseline entry and its files are what they were, and the
      tag of an accepted step names exactly the parent's files with that step's patch, tested
      with exit code 0, as long as no later step named that tag. */
  lemma BranchesHold(o: Oracle, site: Site, b0: Box, valid: bool, title: string, cap: int, k: nat)
    returns (segs: seq<seq<Call>>, outs: seq<StepOutcome>)
    requires Clean(b0) && SparesBaseline(o, site) && o.baselineTag == BaselineTag(site.trace)
    requires var calls := RunTicket(o, site.sha, valid, title, cap).w.calls; k <= |calls| && Faithful(site, b0, calls)
    ensures RunOf(o, site.sha, valid, title, cap, segs, outs)
    ensures var calls := RunTicket(o, site.sha, valid, title, cap).w.calls[..k];
      var b := Replay(site, b0, calls);
      && Clean(b) && SameTag(b0, b, BaselineTag(site.trace))
      && forall n :: 0 <= n < |segs| && Undisturbed(site, segs, outs, n, calls) ==>
           Holds(site, b, Forked(b0, ParentTag(o, valid, title, cap)), outs[n].diff.value)
  {
    hide RunTicket;
    hide ParentTag;
    hide Clean;
    hide SameTag;
    hide Faithful;
    hide SparesBaseline;
    hide Holds;
    segs, outs := RunSegments(o, site.sha, valid, title, cap);
    var all := RunTicket(o, site.sha, valid, title, cap).w.calls;
    var parentTag, base := ParentTag(o, valid, title, cap), BaselineTag(site.trace);
    ParentOfRun(o, site, valid, title, cap);
    forall n: nat | n < |segs|
      ensures !TagOf(o, site, n, base)
    {
      ParentApart(o, site, n, base);
    }
    RunTags(o, site, b0, parentTag, segs, outs, base);
    assert all == all[..k] + all[k..];
    TouchesSplit(site, all[..k], all[k..], base);
    ReplayKeeps(site, b0, all[..k], base);
    forall n: nat | n < |segs| && Undisturbed(site, segs, outs, n, all[..k])
      ensures Holds(site, Replay(site, b0, all[..k]), Forked(b0, parentTag), outs[n].diff.value)
    {
      HeldAfter(o, site, b0, parentTag, segs, outs, n, all[..k]);
    }
  }

  /** The run made these calls, step by step, with these outcomes, and accepted accordingly. */
  ghost predicate RunOf(o: Oracle, sha: string -> string, valid: bool, title: string, cap: int,
                        segs: seq<seq<Call>>, outs: seq<StepOutcome>)
  {
    var steps := PlanSteps(o, title, cap);
    var out := RunTicket(o, sha, valid, title, cap);
    && Segmented(o, sha, ParentTag(o, valid, title, cap), segs, outs) && |segs| <= |steps|
    && out.w.calls == Flatten(segs)
    && (out.Returned? && valid ==> out.result.accepted == Taken(steps, outs))
  }

  /** With distinct candidate ids no later step names an accepted step's tag. */
  lemma DistinctUndisturbed(o: Oracle, site: Site, b0: Box, parentTag: string, segs: seq<seq<Call>>,
                            outs: seq<StepOutcome>, n: nat)
    requires Apart(o) && SparesBaseline(o, site) && Parent(site, parentTag) && Clean(b0)
    requires Segmented(o, site.sha, parentTag, segs, outs) && Faithful(site, b0, Flatten(segs))
    requires n < |segs| && Accepts(outs[n])
    ensures forall m :: n < m < |segs| ==> !Touches(site, segs[m], BranchTag(site.trace, outs[n].diff.value.stepId))
    ensures Undisturbed(site, segs, outs, n, Flatten(segs))
  {
    var t := BranchTag(site.trace, outs[n].diff.value.stepId);
    SegmentAt(site, b0, segs, n);
    ReplayKeeps(site, b0, Flatten(segs[..n]), t);
    StepHolds(o, site, Replay(site, b0, Flatten(segs[..n])), parentTag, n, segs[n], outs[n]);
    var second :| Attempted(o, n, second) == outs[n].diff;
    hide Clean;
    hide Faithful;
    hide CallShape;
    hide Apart;
    hide SparesBaseline;
    forall m | n < m < |segs|
      ensures !Touches(site, segs[m], t)
    {
      SegmentAt(site, b0, segs, m);
      TagsApart(o, site, m, n, second);
      if Touches(site, segs[m], t) {
        StepTags(o, site, Replay(site, b0, Flatten(segs[..m])), m, parentTag, segs[m], outs[m], t);
      }
    }
    var rest := Flatten(segs)[|Flatten(segs[..n + 1])|..];
    if Touches(site, rest, t) {
      var c :| c in rest && CallTag(site, c) == Some(t);
      var m := LaterCalls(segs, n, c);
    }
  }

  lemma UndisturbedPrefix(site: Site, segs: seq<seq<Call>>, outs: seq<StepOutcome>, n: nat, calls: seq<Call>, k: nat)
    requires n < |segs| == |outs| && Undisturbed(site, segs, outs, n, calls)
    requires |Flatten(segs[..n + 1])| <= k <= |calls|
    ensures Undisturbed(site, segs, outs, n, calls[..k])
  {
    var done := |Flatten(segs[..n + 1])|;
    assert calls[done..] == calls[..k][done..] + calls[k..];
    TouchesSplit(site, calls[..k][done..], calls[k..], BranchTag(site.trace, outs[n].diff.value.stepId));
  }

  /** When the candidate ids of different plan steps differ, every step accepted so far is held
      at every moment of every run. */
  lemma AcceptedBranchesHold(o: Oracle, site: Site, b0: Box, valid: bool, title: string, cap: int, k: nat)
    returns (segs: seq<seq<Call>>, outs: seq<StepOutcome>)
    requires Clean(b0) && SparesBaseline(o, site) && Apart(o) && o.baselineTag == BaselineTag(site.trace)
    requires var calls := RunTicket(o, site.sha, valid, title, cap).w.calls; k <= |calls| && Faithful(site, b0, calls)
    ensures RunOf(o, site.sha, valid, title, cap, segs, outs)
    ensures var b := Replay(site, b0, RunTicket(o, site.sha, valid, title, cap).w.calls[..k]);
      && Clean(b) && SameTag(b0, b, BaselineTag(site.trace))
      && forall n :: 0 <= n < |segs| && Accepts(outs[n]) && |Flatten(segs[..n + 1])| <= k ==>
           Holds(site, b, Forked(b0, ParentTag(o, valid, title, cap)), outs[n].diff.value)
  {
    hide RunTicket;
    hide ParentTag;
    hide Clean;
    hide SameTag;
    hide Faithful;
    hide SparesBaseline;
    hide Apart;
    hide Undisturbed;
    hide Holds;
    hide Segmented;
    segs, outs := BranchesHold(o, site, b0, valid, title, cap, k);
    ParentOfRun(o, site, valid, title, cap);
    SegmentCount(o, site.sha, ParentTag(o, valid, title, cap), segs, outs);
    forall n: nat | n < |segs| && Accepts(outs[n]) && |Flatten(segs[..n + 1])| <= k
      ensures Undisturbed(site, segs, outs, n, Flatten(segs)[..k])
    {
      DistinctUndisturbed(o, site, b0, ParentTag(o, valid, title, cap), segs, outs, n);
      UndisturbedPrefix(site, segs, outs, n, Flatten(segs), k);
    }
  }

  lemma SegmentCount(o: Oracle, sha: string -> string, parentTag: string, segs: seq<seq<Call>>, outs: seq<StepOutcome>)
    requires Segmented(o, sha, parentTag, segs, outs)
    ensures |segs| == |outs|
  {
  }

  /** From the creation of the baseline to the end: a returned run whose baseline was created in
      any clean box leaves the baseline tag on exactly the snapshot's files, and every accepted
      step's tag on those files with that step's patch, tested with exit code 0. */
  lemma SnapshotToBranches(o: Oracle, site: Site, before: Box, files: seq<(string, string)>, title: string, cap: int)
    requires Clean(before) && SparesBaseline(o, site) && Apart(o)
    requires o.baselineTag == BaselineTag(site.trace) && ParentTag(o, true, title, cap) == o.baselineTag
    requires var out := RunTicket(o, site.sha, true, title, cap);
      out.Returned? && Faithful(site, CreateBaseline(before, site.trace, files), out.w.calls)
    ensures var out := RunTicket(o, site.sha, true, title, cap);
      var b := Replay(site, CreateBaseline(before, site.trace, files), out.w.calls);
      && Clean(b)
      && BaselineTag(site.trace) in b.tags && HoldsFiles(Forked(b, BaselineTag(site.trace)), files)
      && forall e :: e in out.result.accepted ==> Holds(site, b, Forked(b, BaselineTag(site.trace)), e.diff)
  {
    hide RunTicket;
    hide Faithful;
    hide SparesBaseline;
    hide Apart;
    hide Holds;
    hide CreateBaseline;
    var out := RunTicket(o, site.sha, true, title, cap);
    var b0 := CreateBaseline(before, site.trace, files);
    BaselineClean(before, site.trace, files);
    hide Clean;
    var segs, outs := AcceptedBranchesHold(o, site, b0, true, title, cap, |out.w.calls|);
    SegmentCount(o, site.sha, ParentTag(o, true, title, cap), segs, outs);
    hide Segmented;
    assert out.w.calls[..|out.w.calls|] == out.w.calls;
    SameFork(b0, Replay(site, b0, out.w.calls), BaselineTag(site.trace));
    forall e | e in out.result.accepted
      ensures Holds(site, Replay(site, b0, out.w.calls), Forked(b0, BaselineTag(site.trace)), e.diff)
    {
      var n := TakenMember(PlanSteps(o, title, cap), outs, e);
      FlattenPrefix(segs, n + 1);
    }
  }

  // ------------------------------------------------------------------- cleaning up

  /** Every call reached the sandbox and every verification was answered. */
  ghost predicate AllAnswered(calls: seq<Call>) {
    forall c :: c in calls ==> (c.Branch? ==> c.reply.run.Some?) && (c.Rollback? ==> c.reached)
  }

  /** A tag rolled back and not branched again is gone. */
  lemma {:induction false} Gone(site: Site, b: Box, calls: seq<Call>, k: nat, t: string)
    requires Clean(b) && k < |calls| && calls[k].Rollback? && calls[k].reached && calls[k].branchTag == t
    requires forall j :: k < j < |calls| && calls[j].Branch? ==> BranchTag(site.trace, calls[j].diff.stepId) != t
    ensures t !in Replay(site, b, calls).tags
    decreases |calls|
  {
    var init, c := calls[..|calls| - 1], calls[|calls| - 1];
    ReplayKeeps(site, b, init, t);
    if k < |calls| - 1 {
      Gone(site, b, init, k, t);
    }
    var mid := Replay(site, b, init);
    match c {
      case Branch(_, d, parentTag, _) => BranchKeeps(site.sh, site.sha, mid, site.trace, d, parentTag);
      case Rollback(_, tag, _, _) => RollbackKeeps(mid, tag);
      case _ =>
    }
  }

  /** With every call answered, a step's rollbacks name the tags of its own branches. */
  ghost predicate Answered(site: Site, calls: seq<Call>) {
    && (|calls| > 1 ==> calls[1].Branch?)
    && (|calls| > 2 ==> calls[2].Rollback? && calls[2].reached && calls[2].branchTag == BranchTag(site.trace, calls[1].diff.stepId))
    && (|calls| > 4 ==> calls[4].Branch?)
    && (|calls| > 5 ==> calls[5].Rollback? && calls[5].reached && calls[5].branchTag == BranchTag(site.trace, calls[4].diff.stepId))
    && |calls| <= 6
    && (|calls| > 0 ==> calls[0].Llm?) && (|calls| > 3 ==> calls[3].Llm?)
  }

  lemma StepAnswered(o: Oracle, site: Site, b: Box, parentTag: string, n: nat, calls: seq<Call>, out: StepOutcome)
    requires Faithful(site, b, calls) && AllAnswered(calls) && AllSent(o)
    requires CallShape(o, site.sha, n, parentTag, calls, out)
    ensures Answered(site, calls)
    ensures if out.StepDone? && out.accept
            then (|calls| == 2 || |calls| == 5) && out.diff == Some(calls[|calls| - 1].diff)
            else |calls| <= 1 || |calls| == 3 || |calls| == 4 || |calls| == 6
  {
    assert forall i :: 2 <= i < |calls| ==> calls[i] == calls[2..][i - 2];
    hide Faithful;
    hide BranchTag;
    hide GreenBuild;
    hide SandboxCall;
    if |calls| > 2 {
      ReplyTag(site, b, calls, 1);
      assert calls[1] in calls && calls[2] in calls;
    }
    if |calls| == 2 {
      assert calls[1] in calls;
    }
    if |calls| > 5 {
      assert calls[4] in calls && calls[5] in calls;
      ReplyTag(site, b, calls, 4);
    }
  }

  /** A tag named by a step whose last call on it is a rollback is gone. */
  lemma RolledBack(site: Site, b: Box, calls: seq<Call>, t: string)
    requires Clean(b) && Answered(site, calls) && |calls| > 2
    requires t == calls[2].branchTag || (|calls| > 5 && t == calls[5].branchTag)
    requires |calls| > 4 ==> (|calls| == 6 || BranchTag(site.trace, calls[4].diff.stepId) != t)
    ensures t !in Replay(site, b, calls).tags
  {
    hide Replay;
    if |calls| > 5 && t == calls[5].branchTag {
      Gone(site, b, calls, 5, t);
    } else {
      Gone(site, b, calls, 2, t);
    }
  }

  lemma TouchedTag(site: Site, calls: seq<Call>, t: string)
    requires Answered(site, calls) && Touches(site, calls, t)
    ensures |calls| > 1
    ensures t == BranchTag(site.trace, calls[1].diff.stepId) || (|calls| > 4 && t == BranchTag(site.trace, calls[4].diff.stepId))
  {
    var c :| c in calls && CallTag(site, c) == Some(t);
    var k :| 0 <= k < |calls| && calls[k] == c;
  }

  /** After a step that names tag `t`, `t` exists exactly when it is the accepted diff's. */
  lemma StepCleans(o: Oracle, site: Site, b: Box, parentTag: string, n: nat, calls: seq<Call>, out: StepOutcome, t: string)
    requires SparesBaseline(o, site) && Parent(site, parentTag) && Clean(b)
    requires Faithful(site, b, calls) && AllAnswered(calls) && AllSent(o)
    requires CallShape(o, site.sha, n, parentTag, calls, out) && Touches(site, calls, t)
    ensures t in Replay(site, b, calls).tags <==> AcceptedAs(site, out, t)
  {
    StepAnswered(o, site, b, parentTag, n, calls, out);
    TouchedTag(site, calls, t);
    if out.StepDone? && out.accept {
      StepHolds(o, site, b, parentTag, n, calls, out);
    }
    hide Replay;
    hide Clean;
    hide Faithful;
    hide CallShape;
    hide SparesBaseline;
    if !AcceptedAs(site, out, t) {
      RolledBack(site, b, calls, t);
    }
  }

  /** The step was accepted, and `t` is the tag of its diff. */
  predicate AcceptedAs(site: Site, out: StepOutcome, t: string) {
    Accepts(out) && t == BranchTag(site.trace, out.diff.value.stepId)
  }

  /** Step `n` is the last one whose calls name `t`. */
  ghost predicate LastTouch(site: Site, segs: seq<seq<Call>>, t: string, n: nat) {
    n < |segs| && Touches(site, segs[n], t) && forall m :: n < m < |segs| ==> !Touches(site, segs[m], t)
  }

  lemma {:induction false} TouchDecides(o: Oracle, site: Site, b0: Box, parentTag: string, segs: seq<seq<Call>>,
                                        outs: seq<StepOutcome>, t: string) returns (n: nat)
    requires SparesBaseline(o, site) && Parent(site, parentTag) && Clean(b0) && AllSent(o)
    requires Segmented(o, site.sha, parentTag, segs, outs)
    requires Faithful(site, b0, Flatten(segs)) && AllAnswered(Flatten(segs)) && Touches(site, Flatten(segs), t)
    ensures LastTouch(site, segs, t, n)
    ensures t in Replay(site, b0, Flatten(segs)).tags <==> AcceptedAs(site, outs[n], t)
    decreases |segs|
  {
    hide CallShape;
    hide Faithful;
    hide SparesBaseline;
    hide AllSent;
    hide Clean;
    hide AllAnswered;
    hide AcceptedAs;
    n := |segs| - 1;
    var before := Flatten(segs[..n]);
    SegmentAt(site, b0, segs, n);
    assert segs[..n + 1] == segs;
    TouchesSplit(site, before, segs[n], t);
    AnsweredParts(before, segs[n]);
    ReplayKeeps(site, b0, before, t);
    if Touches(site, segs[n], t) {
      StepCleans(o, site, Replay(site, b0, before), parentTag, n, segs[n], outs[n], t);
    } else {
      ReplayKeeps(site, Replay(site, b0, before), segs[n], t);
      n := TouchDecides(o, site, b0, parentTag, segs[..n], outs[..n], t);
    }
  }

  lemma AnsweredParts(first: seq<Call>, rest: seq<Call>)
    requires AllAnswered(first + rest)
    ensures AllAnswered(first) && AllAnswered(rest)
  {
    assert forall c :: c in first || c in rest ==> c in first + rest;
  }

  /** When the stream delivers, every call reaches the sandbox and every verification is
      answered, the tag map after any run is exactly known, whatever ids the candidates bear: a
      tag the run named exists if and only if the last plan step that named it was accepted with
      that very tag; every other tag is as it was. */
  lemma TagsExact(o: Oracle, site: Site, b0: Box, valid: bool, title: string, cap: int, t: string)
    returns (segs: seq<seq<Call>>, outs: seq<StepOutcome>, n: nat)
    requires Clean(b0) && SparesBaseline(o, site) && o.baselineTag == BaselineTag(site.trace) && AllSent(o)
    requires var calls := RunTicket(o, site.sha, valid, title, cap).w.calls; Faithful(site, b0, calls) && AllAnswered(calls)
    ensures RunOf(o, site.sha, valid, title, cap, segs, outs)
    ensures var calls := RunTicket(o, site.sha, valid, title, cap).w.calls;
      var b := Replay(site, b0, calls);
      if Touches(site, calls, t)
      then LastTouch(site, segs, t, n) && n < |outs| && (t in b.tags <==> AcceptedAs(site, outs[n], t))
      else SameTag(b0, b, t)
  {
    hide RunTicket;
    hide ParentTag;
    hide Clean;
    hide SameTag;
    hide Faithful;
    hide AllAnswered;
    hide SparesBaseline;
    hide AllSent;
    hide LastTouch;
    hide Touches;
    hide AcceptedAs;
    segs, outs := RunSegments(o, site.sha, valid, title, cap);
    n := 0;
    ParentOfRun(o, site, valid, title, cap);
    ReplayKeeps(site, b0, Flatten(segs), t);
    if Touches(site, Flatten(segs), t) {
      n := TouchDecides(o, site, b0, ParentTag(o, valid, title, cap), segs, outs, t);
      SegmentCount(o, site.sha, ParentTag(o, valid, title, cap), segs, outs);
      TouchInRange(site, segs, t, n);
    }
  }

  lemma TouchInRange(site: Site, segs: seq<seq<Call>>, t: string, n: nat)
    requires LastTouch(site, segs, t, n)
    ensures n < |segs|
  {
  }

  /** The tag is that of an accepted diff. */
  ghost predicate AcceptedTag(site: Site, accepted: seq<AcceptedStep>, t: string) {
    exists e :: e in accepted && BranchTag(site.trace, e.diff.stepId) == t
  }

  /** Under the same hypotheses no rejected attempt leaves a tag behind; and an accepted diff's tag
      survives a returned run if and only if the last plan step that named the tag was accepted
      with it. With distinct candidate ids that is always so. */
  lemma RollbacksLeaveNothing(o: Oracle, site: Site, b0: Box, title: string, cap: int, t: string)
    returns (segs: seq<seq<Call>>, outs: seq<StepOutcome>, n: nat)
    requires Clean(b0) && SparesBaseline(o, site) && o.baselineTag == BaselineTag(site.trace) && AllSent(o)
    requires var out := RunTicket(o, site.sha, true, title, cap);
      && out.Returned? && Faithful(site, b0, out.w.calls) && AllAnswered(out.w.calls)
      && Touches(site, out.w.calls, t)
    ensures RunOf(o, site.sha, true, title, cap, segs, outs) && LastTouch(site, segs, t, n) && n < |outs|
    ensures var out := RunTicket(o, site.sha, true, title, cap);
      var b := Replay(site, b0, out.w.calls);
      && (t in b.tags ==> AcceptedTag(site, out.result.accepted, t))
      && ((t in b.tags <==> AcceptedTag(site, out.result.accepted, t)) <==>
            (AcceptedTag(site, out.result.accepted, t) ==> AcceptedAs(site, outs[n], t)))
      && (Apart(o) ==> (t in b.tags <==> AcceptedTag(site, out.result.accepted, t)))
  {
    hide RunTicket;
    hide ParentTag;
    hide Clean;
    hide Faithful;
    hide AllAnswered;
    hide SparesBaseline;
    hide AllSent;
    hide Touches;
    hide Apart;
    hide Segmented;
    segs, outs, n := TagsExact(o, site, b0, true, title, cap, t);
    var steps := PlanSteps(o, title, cap);
    var out := RunTicket(o, site.sha, true, title, cap);
    SegmentCount(o, site.sha, ParentTag(o, true, title, cap), segs, outs);
    if AcceptedAs(site, outs[n], t) {
      TakenHolds(steps, outs, n);
      assert AcceptedTag(site, out.result.accepted, t);
    } else if Apart(o) && AcceptedTag(site, out.result.accepted, t) {
      var e :| e in out.result.accepted && BranchTag(site.trace, e.diff.stepId) == t;
      var m := TakenMember(steps, outs, e);
      ParentOfRun(o, site, true, title, cap);
      DistinctUndisturbed(o, site, b0, ParentTag(o, true, title, cap), segs, outs, m);
      OwnTag(o, site, ParentTag(o, true, title, cap), m, segs, outs);
      assert false;
    }
  }

  lemma OwnTag(o: Oracle, site: Site, parentTag: string, n: nat, segs: seq<seq<Call>>, outs: seq<StepOutcome>)
    requires Segmented(o, site.sha, parentTag, segs, outs) && n < |segs| && Accepts(outs[n])
    ensures Touches(site, segs[n], BranchTag(site.trace, outs[n].diff.value.stepId))
  {
    var calls := segs[n];
    assert CallShape(o, site.sha, n, parentTag, calls, outs[n]);
    assert |calls| > 2 ==> calls[2..][2] == calls[4];
    assert calls[|calls| - 1] in calls;
  }
}
