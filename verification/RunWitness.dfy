/** Two concrete runs: one whose green verdict escapes its step, and one that deletes the branch
    of a step it accepted. */
module RunWitness {
  import opened Sequences
  import opened Gate
  import opened StepIds
  import opened Orchestrator
  import opened RunEvents
  import opened RunView
  import opened Sandbox
  import opened RunSandbox
  import RunDegraded
  import RunSafety
  import Selectors
  import Compose

  /** An outside world in which everything goes well but what the arguments say; no re-draft ever
      parses. */
  function Calm(steps: seq<PlanStep>, tag: string, publish: nat -> PublishReply, draft: nat -> DraftReply,
                branch: (nat, bool) -> BranchReply): Oracle
  {
    Oracle(publish, Good, Good, tag, Quiet, Planned(steps), (n: nat) => false, draft, (n: nat) => Unparsed, branch,
      (n: nat, second: bool) => true, (k: nat) => Good, (k: nat) => Published(None))
  }

  ghost predicate Calmly(o: Oracle) {
    && o.grounding == o.baseline == Good && o.pack == Quiet && o.planner.Planned?
    && o.ledger(0) == Good && o.pr(0).Published?
  }

  ghost predicate SentFrom(o: Oracle, first: nat, count: nat) { forall k :: first <= k < first + count ==> o.publish(k) == Sent }

  lemma CalmPhase(o: Oracle, w: World, id: StepId, lost: Status)
    requires SentFrom(o, w.publishes, 2)
    ensures var (f, ok) := AskPhase(o, w, false, id, Good, lost);
      f.Go? && !f.degraded && ok && f.w.publishes == w.publishes + 2 && |f.w.log| == |w.log| + 2 && f.w.calls == w.calls
  {
  }

  lemma CalmOtherPhase(o: Oracle, w: World, steps: seq<PlanStep>)
    requires SentFrom(o, w.publishes, 2) && Calmly(o)
    ensures forall f :: f in {OpenTicket(o, w, true), PackContext(o, w, false), MakePlan(o, w, false, steps)} ==>
      f.Go? && !f.degraded && f.w.publishes == w.publishes + 2 && |f.w.log| == |w.log| + 2 && f.w.calls == w.calls
  {
  }

  lemma CalmPrelude(o: Oracle, title: string, cap: int)
    requires SentFrom(o, 0, 10) && Calmly(o)
    ensures var pre := Prepare(o, true, title, cap);
      pre.Ready? && pre.parentTag == o.baselineTag && pre.w.publishes == 10 == |pre.w.log| && pre.w.calls == []
  {
    hide OpenTicket;
    hide AskPhase;
    hide PackContext;
    hide MakePlan;
    var steps := PlanSteps(o, title, cap);
    CalmOtherPhase(o, Fresh, steps);
    var f0 := OpenTicket(o, Fresh, true);
    assert f0.Go?;
    CalmPhase(o, f0.w, StepId.Grounding, Done);
    var f1 := AskPhase(o, f0.w, f0.degraded, StepId.Grounding, o.grounding, Done).0;
    CalmPhase(o, f1.w, StepId.Baseline, Failed);
    var f2 := AskPhase(o, f1.w, f1.degraded, StepId.Baseline, o.baseline, Failed).0;
    CalmOtherPhase(o, f2.w, steps);
    var f3 := PackContext(o, f2.w, f2.degraded);
    assert f3.Go?;
    CalmOtherPhase(o, f3.w, steps);
    assert MakePlan(o, f3.w, false, steps).Go?;
  }

  lemma CalmFinish(o: Oracle, ids: seq<string>, p: Progress)
    requires SentFrom(o, p.w.publishes, 4) && Calmly(o)
    ensures var out := Finish(o, ids, p);
      && out.Returned? && out.result.accepted == p.accepted && out.w.calls == p.w.calls
      && p.w.log <= out.w.log && out.w.publishes == p.w.publishes + 4
  {
    var t0 := Tail(p.w, p.degraded, None, Quiet);
    var t1 := DoLedger(o, t0, 0);
    assert t1.r.Quiet? && p.w.log <= t1.w.log && t1.w.publishes == p.w.publishes + 2 && t1.w.calls == p.w.calls;
    hide DoLedger;
    hide Compose.Composed;
    var t2 := DoPr(o, ids, p.accepted, p.rejected, t1, 0);
    assert t2.r.Quiet? && t1.w.log <= t2.w.log && t2.w.publishes == t1.w.publishes + 2 && t2.w.calls == t1.w.calls;
  }

  // ------------------------------------------------------------------- an escaped verdict

  lemma EscapingStep(o: Oracle, sha: string -> string, w: World, n: nat, s: PlanStep, parentTag: string, d: Candidate, run: SandboxRun)
    requires o.draft(n) == Drafted(d) && o.branch(n, false).run == Some(run) && GreenBuild(sha, d, run)
    requires SentFrom(o, w.publishes, 3) && o.publish(w.publishes + 3) == SentThenRaised(false)
    ensures var (w1, out) := RunOneStep(o, sha, w, n, s, parentTag);
      && out == StepThrew(false) && w1.publishes == w.publishes + 4 && w.log <= w1.log && |w1.log| == |w.log| + 4
      && w1.log[|w.log| + 3] == VerdictEnvelope(sha, Verify(n), d, run)
  {
    GateExact(sha, d, run);
    hide RedraftOnce;
    hide GreenBuild;
  }

  lemma {:induction false} AllDelivered(o: Oracle, k: nat)
    requires forall j :: 0 <= j < k ==> !o.publish(j).Dropped?
    ensures Delivered(o, k) == k
  {
    if k > 0 {
      AllDelivered(o, k - 1);
    }
  }

  lemma EscapingRun(o: Oracle, sha: string -> string, title: string, trace: string, s: PlanStep, d: Candidate, run: SandboxRun)
    requires Honest(o, sha) && NonEmptyDrafts(o) && Calmly(o) && o.planner == Planned([s]) && !o.overBudget(0)
    requires o.draft(0) == Drafted(d) && o.branch(0, false).run == Some(run) && GreenBuild(sha, d, run)
    requires SentFrom(o, 0, 13) && o.publish(13) == SentThenRaised(false) && SentFrom(o, 14, 5)
    ensures var out := RunTicket(o, sha, true, title, 8);
      && out.Returned? && |PlanSteps(o, title, 8)| == 1 && out.result.accepted == []
      && Shown(out.w.log, trace, 0) == Selectors.Pass && Escapes(o, out.w)
  {
    hide Honest;
    hide NonEmptyDrafts;
    hide Calmly;
    CalmPrelude(o, title, 8);
    var pre := Prepare(o, true, title, 8);
    var p0 := Progress(pre.w, pre.degraded, [], []);
    EscapingStep(o, sha, pre.w, 0, s, pre.parentTag, d, run);
    hide GreenBuild;
    hide Prepare;
    var p1 := EscapedStep(o, sha, s, p0, pre.parentTag);
    hide RunOneStep;
    hide StepLoop;
    CalmFinish(o, StepNames([s]), p1);
    LoopedRun(o, sha, title, [s], p1);
    hide RunTicket;
    AllDelivered(o, 13);
    Escaped(o, sha, RunOneStep(o, sha, pre.w, 0, s, pre.parentTag).0.log, Finish(o, StepNames([s]), p1).w, d, run);
    hide Finish;
    OneUnaccepted(o, sha, title, trace);
  }

  /** A run in which one publish, that of a green verdict, raises an error after delivering: the
      run returns, its only step is not accepted, and the console shows `pass` beside it. */
  lemma GreenVerdictEscapes(sha: string -> string, title: string, trace: string) returns (o: Oracle)
    ensures Honest(o, sha) && NonEmptyDrafts(o) && forall k :: k != 13 ==> o.publish(k) == Sent
    ensures var out := RunTicket(o, sha, true, title, 8);
      && out.Returned? && |PlanSteps(o, title, 8)| == 1 && out.result.accepted == []
      && Shown(out.w.log, trace, 0) == Selectors.Pass && Escapes(o, out.w)
  {
    var s := PlanStep("step-1", "f", "", "");
    var d := Candidate("step-1", "f", "diff", "");
    var run := SandboxRun("t", "p", 0, "", "", 0, sha(d.unifiedDiff), false);
    o := Calm([s], "p", (k: nat) => if k == 13 then SentThenRaised(false) else Sent, (n: nat) => Drafted(d),
      (n: nat, second: bool) => BranchReply(true, Some(run)));
    EscapingRun(o, sha, title, trace, s, d, run);
    hide RunTicket;
    hide Shown;
    hide Escapes;
  }

  lemma Escaped(o: Oracle, sha: string -> string, log: seq<Envelope>, end: World, d: Candidate, run: SandboxRun)
    requires GreenBuild(sha, d, run) && Delivered(o, 13) == 13 < end.publishes && o.publish(13).SentThenRaised?
    requires log <= end.log && |log| == 14 && log[13] == VerdictEnvelope(sha, Verify(0), d, run)
    ensures Escapes(o, end)
  {
    GatesAgree(o, sha, 0, false, d);
    GateExact(sha, d, run);
    assert Landed(o, end.log, 13, log[13]) && IsVerdict(log[13]) && GateOk(log[13]);
    assert EscapedAt(o, end, 13);
  }

  lemma EscapedStep(o: Oracle, sha: string -> string, s: PlanStep, p: Progress, parentTag: string) returns (p1: Progress)
    requires !o.overBudget(0) && p.accepted == [] && p.w.publishes == 10
    requires var (w, out) := RunOneStep(o, sha, p.w, 0, s, parentTag);
      out == StepThrew(false) && w.publishes == 14 && o.publish(14) == Sent
    ensures StepLoop(o, sha, [s], 0, p, parentTag) == LoopDone(p1) && p1.accepted == [] && p1.w.publishes == 15
    ensures RunOneStep(o, sha, p.w, 0, s, parentTag).0.log <= p1.w.log
  {
    hide RunOneStep;
    var (w, out) := RunOneStep(o, sha, p.w, 0, s, parentTag);
    p1 := Record(o, p, 0, s, w, out).p;
    assert StepLoop(o, sha, [s], 1, p1, parentTag) == LoopDone(p1);
  }

  lemma LoopedRun(o: Oracle, sha: string -> string, title: string, steps: seq<PlanStep>, p: Progress)
    requires o.planner == Planned(steps) && |steps| <= 8 && Prepare(o, true, title, 8).Ready?
    requires var pre := Prepare(o, true, title, 8);
      StepLoop(o, sha, steps, 0, Progress(pre.w, pre.degraded, [], []), pre.parentTag) == LoopDone(p)
    ensures RunTicket(o, sha, true, title, 8) == Finish(o, StepNames(steps), p) && PlanSteps(o, title, 8) == steps
  {
    hide Prepare;
    hide StepLoop;
    hide Finish;
  }

  /** An escaped verdict in a run of one step shows `pass` beside that step. */
  lemma OneUnaccepted(o: Oracle, sha: string -> string, title: string, trace: string)
    requires Honest(o, sha) && NonEmptyDrafts(o) && |PlanSteps(o, title, 8)| == 1
    requires var out := RunTicket(o, sha, true, title, 8); out.Returned? && Escapes(o, out.w)
    ensures Shown(RunTicket(o, sha, true, title, 8).w.log, trace, 0) == Selectors.Pass
  {
    hide RunTicket;
    hide PlanSteps;
    hide Shown;
    hide Escapes;
    hide RunSafety.Split;
    var mask := PassMeansAccepted(o, sha, title, 8, trace);
  }

  // ------------------------------------------------------------------- a deleted branch

  function FirstCalls(n: nat, d: Candidate, parentTag: string, reply: BranchReply): seq<Call> {
    [Llm(n, false), Branch(n, d, parentTag, reply)]
  }

  function LastCalls(n: nat, tag: string, parentTag: string): seq<Call> {
    [Rollback(n, tag, parentTag, true), Llm(n, true)]
  }

  lemma GreenStep(o: Oracle, sha: string -> string, w: World, n: nat, s: PlanStep, parentTag: string, d: Candidate, run: SandboxRun)
    requires AllSent(o) && o.draft(n) == Drafted(d) && o.branch(n, false).run == Some(run) && GreenBuild(sha, d, run)
    ensures var (w1, out) := RunOneStep(o, sha, w, n, s, parentTag);
      && out == StepDone(true, Some(d), Some(run), false)
      && w1.calls == w.calls + FirstCalls(n, d, parentTag, o.branch(n, false))
  {
    GateExact(sha, d, run);
    hide RedraftOnce;
    hide GreenBuild;
  }

  /** Red at first, and the re-draft does not parse. */
  lemma RedStep(o: Oracle, sha: string -> string, w: World, n: nat, s: PlanStep, parentTag: string, d: Candidate, run: SandboxRun)
    requires AllSent(o) && o.draft(n) == Drafted(d) && o.branch(n, false).run == Some(run) && !GreenBuild(sha, d, run)
    requires o.redraft(n) == Unparsed && o.rollbackReaches(n, false)
    ensures var (w1, out) := RunOneStep(o, sha, w, n, s, parentTag);
      && out.StepDone? && !out.accept
      && w1.calls == w.calls + (FirstCalls(n, d, parentTag, o.branch(n, false)) + LastCalls(n, run.branchTag, parentTag))
  {
    GateExact(sha, d, run);
    RunDegraded.SentFacts(o);
    RunSafety.PublishKeepsCalls(o);
    hide Publish;
    hide GreenBuild;
    hide AllSent;
  }

  lemma {:induction false} FaithfulJoin(site: Site, b: Box, first: seq<Call>, rest: seq<Call>)
    requires Faithful(site, b, first) && Faithful(site, Replay(site, b, first), rest)
    ensures Faithful(site, b, first + rest) && Replay(site, b, first + rest) == Replay(site, Replay(site, b, first), rest)
    decreases |rest|
  {
    if rest == [] {
      assert first + rest == first;
    } else {
      var init := rest[..|rest| - 1];
      assert (first + rest)[..|first + rest| - 1] == first + init;
      FaithfulJoin(site, b, first, init);
    }
  }

  /** The tests pass exactly on the patch `good`. */
  function Picky(): Shell {
    Shell((tree: Tree, diff: string) => Applied(tree),
      (k: nat, tree: Tree) => TestRun(if PATCH in tree && tree[PATCH] == "good" then 0 else 1, tree, "", "", 0))
  }

  function Answer(site: Site, b: Box, d: Candidate): BranchReply {
    BranchReply(true, RunBranch(site.sh, site.sha, b, site.trace, d, BaselineTag(site.trace)).1)
  }

  /** The calls of the run below: a green step, then a red one under the same candidate id. */
  function Doomed(site: Site, r0: BranchReply, r1: BranchReply, d0: Candidate, d1: Candidate): seq<Call> {
    var base := BaselineTag(site.trace);
    FirstCalls(0, d0, base, r0) + (FirstCalls(1, d1, base, r1) + LastCalls(1, BranchTag(site.trace, d1.stepId), base))
  }

  lemma FirstFaithful(site: Site, b: Box, n: nat, d: Candidate)
    ensures var reply := Answer(site, b, d);
      var calls := FirstCalls(n, d, BaselineTag(site.trace), reply);
      Faithful(site, b, calls) && Replay(site, b, calls) == Effect(site, b, Branch(n, d, BaselineTag(site.trace), reply))
  {
    var calls := FirstCalls(n, d, BaselineTag(site.trace), Answer(site, b, d));
    assert calls[..1] == [Llm(n, false)] && calls[..1][..0] == [];
    assert Faithful(site, b, calls[..1]) && Replay(site, b, calls[..1]) == b;
    hide RunBranch;
  }

  lemma LastFaithful(site: Site, b: Box, n: nat, tag: string, parentTag: string)
    ensures var calls := LastCalls(n, tag, parentTag); Faithful(site, b, calls) && tag !in Replay(site, b, calls).tags
  {
    var calls := LastCalls(n, tag, parentTag);
    assert calls[..1] == [Rollback(n, tag, parentTag, true)] && calls[..1][..0] == [];
    assert Faithful(site, b, calls[..1]) && Replay(site, b, calls[..1]) == RollbackTag(b, tag);
  }

  lemma DoomedCalls(site: Site, b0: Box, d0: Candidate, d1: Candidate)
    requires d0.stepId == d1.stepId
    ensures var r0 := Answer(site, b0, d0);
      var b1 := Effect(site, b0, Branch(0, d0, BaselineTag(site.trace), r0));
      var calls := Doomed(site, r0, Answer(site, b1, d1), d0, d1);
      Faithful(site, b0, calls) && BranchTag(site.trace, d0.stepId) !in Replay(site, b0, calls).tags
  {
    var base, tag := BaselineTag(site.trace), BranchTag(site.trace, d1.stepId);
    var r0 := Answer(site, b0, d0);
    var b1 := Effect(site, b0, Branch(0, d0, base, r0));
    var r1 := Answer(site, b1, d1);
    FirstFaithful(site, b0, 0, d0);
    FirstFaithful(site, b1, 1, d1);
    var b2 := Effect(site, b1, Branch(1, d1, base, r1));
    LastFaithful(site, b2, 1, tag, base);
    FaithfulJoin(site, b1, FirstCalls(1, d1, base, r1), LastCalls(1, tag, base));
    FaithfulJoin(site, b0, FirstCalls(0, d0, base, r0), FirstCalls(1, d1, base, r1) + LastCalls(1, tag, base));
    hide Answer;
    hide Effect;
    hide Replay;
    hide Faithful;
    hide FirstCalls;
    hide LastCalls;
  }

  lemma PickyAnswers(site: Site, b: Box, d: Candidate)
    requires site.sh == Picky()
    ensures var r := Answer(site, b, d);
      && r.run.Some? && r.run.value.branchTag == BranchTag(site.trace, d.stepId)
      && r.run.value.verifiedSha == site.sha(d.unifiedDiff)
      && (r.run.value.exitCode == 0 <==> d.unifiedDiff == "good")
  {
    var tree := Patched(b, BaselineTag(site.trace), d.unifiedDiff);
    assert tree[PATCH] == d.unifiedDiff;
  }

  lemma TwoSteps(o: Oracle, sha: string -> string, title: string, steps: seq<PlanStep>, d0: Candidate, d1: Candidate,
                 run0: SandboxRun, run1: SandboxRun)
    requires Calmly(o) && AllSent(o) && o.planner == Planned(steps) && |steps| == 2 && !o.overBudget(0) && !o.overBudget(1)
    requires o.draft(0) == Drafted(d0) && o.branch(0, false).run == Some(run0) && GreenBuild(sha, d0, run0)
    requires o.draft(1) == Drafted(d1) && o.branch(1, false).run == Some(run1) && !GreenBuild(sha, d1, run1)
    requires o.redraft(1) == Unparsed && o.rollbackReaches(1, false)
    ensures var out := RunTicket(o, sha, true, title, 8);
      && out.Returned? && out.result.accepted == [AcceptedStep(steps[0], d0, run0)]
      && out.w.calls == FirstCalls(0, d0, o.baselineTag, o.branch(0, false)) +
           (FirstCalls(1, d1, o.baselineTag, o.branch(1, false)) + LastCalls(1, run1.branchTag, o.baselineTag))
  {
    CalmPrelude(o, title, 8);
    hide Prepare;
    hide RunOneStep;
    hide Finish;
    hide Calmly;
    var pre := Prepare(o, true, title, 8);
    var tag := pre.parentTag;
    GreenStep(o, sha, pre.w, 0, steps[0], tag, d0, run0);
    var (w1, out1) := RunOneStep(o, sha, pre.w, 0, steps[0], tag);
    RedStep(o, sha, w1, 1, steps[1], tag, d1, run1);
    hide GreenBuild;
    var p0 := Progress(pre.w, pre.degraded, [], []);
    var p2 := TwoTurns(o, sha, steps, p0, tag, AcceptedStep(steps[0], d0, run0));
    LoopedRun(o, sha, title, steps, p2);
    hide StepLoop;
    hide RunTicket;
    CalmFinish(o, StepNames(steps), p2);
    hide AllSent;
    hide SentFrom;
    assert [] + FirstCalls(0, d0, tag, o.branch(0, false)) == FirstCalls(0, d0, tag, o.branch(0, false));
    hide FirstCalls;
    hide LastCalls;
  }

  /** A loop of two turns, the first accepting and the second not. */
  lemma TwoTurns(o: Oracle, sha: string -> string, steps: seq<PlanStep>, p: Progress, tag: string, e: AcceptedStep)
    returns (p2: Progress)
    requires |steps| == 2 && !o.overBudget(0) && !o.overBudget(1) && e.step == steps[0] && p.accepted == []
    requires RunOneStep(o, sha, p.w, 0, steps[0], tag).1 == StepDone(true, Some(e.diff), Some(e.run), false)
    requires var w1 := RunOneStep(o, sha, p.w, 0, steps[0], tag).0;
      var out2 := RunOneStep(o, sha, w1, 1, steps[1], tag).1; out2.StepDone? && !out2.accept
    ensures StepLoop(o, sha, steps, 0, p, tag) == LoopDone(p2)
    ensures p2.accepted == [e]
    ensures p2.w == RunOneStep(o, sha, RunOneStep(o, sha, p.w, 0, steps[0], tag).0, 1, steps[1], tag).0
  {
    hide RunOneStep;
    var (w1, out1) := RunOneStep(o, sha, p.w, 0, steps[0], tag);
    var p1 := Record(o, p, 0, steps[0], w1, out1).p;
    assert p1.accepted == [e] && p1.w == w1;
    var (w2, out2) := RunOneStep(o, sha, w1, 1, steps[1], tag);
    p2 := Record(o, p1, 1, steps[1], w2, out2).p;
    assert p2.accepted == p1.accepted && p2.w == w2;
    assert StepLoop(o, sha, steps, 2, p2, tag) == LoopDone(p2);
    assert StepLoop(o, sha, steps, 1, p1, tag) == LoopDone(p2);
  }

  lemma DoomedRun(o: Oracle, site: Site, title: string, steps: seq<PlanStep>, b0: Box, d0: Candidate, d1: Candidate)
    requires Clean(b0) && d0.stepId == d1.stepId && site.sh == Picky() && o.baselineTag == BaselineTag(site.trace)
    requires Calmly(o) && AllSent(o) && o.planner == Planned(steps) && |steps| == 2 && !o.overBudget(0) && !o.overBudget(1)
    requires o.draft(0) == Drafted(d0) && d0.unifiedDiff == "good" && d0.file != ""
    requires o.draft(1) == Drafted(d1) && d1.unifiedDiff == "bad"
    requires o.branch(0, false) == Answer(site, b0, d0)
    requires o.branch(1, false) == Answer(site, Effect(site, b0, Branch(0, d0, BaselineTag(site.trace), o.branch(0, false))), d1)
    requires o.redraft(1) == Unparsed && o.rollbackReaches(1, false)
    ensures var out := RunTicket(o, site.sha, true, title, 8);
      && out.Returned? && Faithful(site, b0, out.w.calls) && AllAnswered(out.w.calls)
      && |out.result.accepted| == 1 && out.result.accepted[0].diff == d0
      && BranchTag(site.trace, d0.stepId) !in Replay(site, b0, out.w.calls).tags
  {
    var b1 := Effect(site, b0, Branch(0, d0, BaselineTag(site.trace), o.branch(0, false)));
    PickyAnswers(site, b0, d0);
    PickyAnswers(site, b1, d1);
    DoomedCalls(site, b0, d0, d1);
    hide Picky;
    hide Answer;
    hide Effect;
    hide BaselineTag;
    hide BranchTag;
    TwoSteps(o, site.sha, title, steps, d0, d1, o.branch(0, false).run.value, o.branch(1, false).run.value);
    hide RunTicket;
    hide Replay;
    hide Faithful;
    DoomedAnswered(site, o.branch(0, false), o.branch(1, false), d0, d1);
  }

  lemma DoomedAnswered(site: Site, r0: BranchReply, r1: BranchReply, d0: Candidate, d1: Candidate)
    requires r0.run.Some? && r1.run.Some?
    ensures AllAnswered(Doomed(site, r0, r1, d0, d1))
  {
  }

  /** A run on any clean box in which everything is delivered, reached and answered truly: it
      accepts its first step on a green build, and the rollback of its second step, whose
      candidate bears the same id, deletes the branch of the first. */
  lemma SharedIdsDeleteAccepted(sha: string -> string, trace: string, title: string, b0: Box) returns (o: Oracle, site: Site)
    requires Clean(b0)
    ensures site.sha == sha && site.trace == trace
    ensures AllSent(o) && SparesBaseline(o, site) && o.baselineTag == BaselineTag(trace)
    ensures var out := RunTicket(o, sha, true, title, 8);
      && out.Returned? && Faithful(site, b0, out.w.calls) && AllAnswered(out.w.calls)
      && |out.result.accepted| == 1
      && BranchTag(trace, out.result.accepted[0].diff.stepId) !in Replay(site, b0, out.w.calls).tags
  {
    site := Site(Picky(), sha, trace);
    var d0, d1 := Candidate("step-1", "f", "good", ""), Candidate("step-1", "f", "bad", "");
    var r0 := Answer(site, b0, d0);
    var r1 := Answer(site, Effect(site, b0, Branch(0, d0, BaselineTag(trace), r0)), d1);
    var steps := [PlanStep("step-1", "f", "", ""), PlanStep("step-2", "f", "", "")];
    o := Calm(steps, BaselineTag(trace), (k: nat) => Sent, (n: nat) => Drafted(if n == 0 then d0 else d1),
      (n: nat, second: bool) => if n == 0 then r0 else r1);
    BranchTagIsNotBaseline(trace, "step-1");
    hide Picky;
    hide Answer;
    hide Effect;
    hide BaselineTag;
    hide BranchTag;
    hide RunTicket;
    hide Faithful;
    hide Replay;
    DoomedRun(o, site, title, steps, b0, d0, d1);
  }
}
