/** Safety of whole runs, for every oracle: only green builds are accepted, plan steps are
    conserved, the budget stop is final, and a red build is re-drafted at most once. */
module RunSafety {
  import opened Sequences
  import opened Gate
  import opened StepIds
  import opened Orchestrator
  import Compose
  import Text

  // ------------------------------------------------------------------- the call sequence

  lemma PublishKeepsCalls(o: Oracle)
    ensures forall w: World, e: Envelope {:trigger Publish(o, w, e)} ::
      Publish(o, w, e).0.calls == w.calls && (AllSent(o) ==> Publish(o, w, e).1.Quiet?)
  {
  }

  /** Verification makes one sandbox call, and its verdict is the gate's on that answer. */
  lemma VerifyCalls(o: Oracle, sha: string -> string, w: World, n: nat, second: bool, d: Candidate, parentTag: string)
    ensures var (w1, v) := VerifyDiff(o, sha, w, n, second, d, parentTag);
      var call := Branch(n, d, parentTag, o.branch(n, second));
      && (w1.calls == w.calls + [call] || (v.VerifyThrew? && w1.calls == w.calls))
      && (v.Verified? ==>
            && w1.calls == w.calls + [call]
            && v.run == call.reply.run
            && (v.ok <==> v.run.Some? && GreenBuild(sha, d, v.run.value))
            && v.branchTag == (if v.run.Some? then v.run.value.branchTag else "unknown"))
      && (AllSent(o) ==> v.Verified?)
  {
  }

  /** A verification call: the diff of the attempt, forked from `parentTag`. */
  ghost predicate SandboxCall(o: Oracle, n: nat, second: bool, parentTag: string, call: Call) {
    && Attempted(o, n, second).Some?
    && call == Branch(n, Attempted(o, n, second).value, parentTag, o.branch(n, second))
  }

  /** The calls of the re-draft: roll back, draft again, verify again, roll back. */
  ghost predicate RedraftShape(o: Oracle, sha: string -> string, n: nat, parentTag: string, branchTag: string,
                               calls: seq<Call>, out: StepOutcome)
  {
    && 1 <= |calls| <= 4
    && calls[0].Rollback? && calls[0].n == n && calls[0].branchTag == branchTag
    && (|calls| > 1 ==> calls[1] == Llm(n, true))
    && (|calls| > 2 ==> SandboxCall(o, n, true, parentTag, calls[2]))
    && (|calls| > 3 ==>
          && (calls[2].reply.run.Some? ==> !GreenBuild(sha, calls[2].diff, calls[2].reply.run.value))
          && calls[3].Rollback? && calls[3].n == n
          && calls[3].branchTag == (if calls[2].reply.run.Some? then calls[2].reply.run.value.branchTag else "unknown"))
    && (out.StepDone? && out.accept ==>
          && |calls| == 3 && out.diff == Some(calls[2].diff) && out.run == calls[2].reply.run && out.run.Some?
          && GreenBuild(sha, out.diff.value, out.run.value))
    && (|calls| == 3 && out.StepDone? ==> out.accept)
    && (AllSent(o) && out.StepThrew? ==> |calls| == 1)
  }

  lemma RedraftCalls(o: Oracle, sha: string -> string, w: World, n: nat, s: PlanStep, parentTag: string,
                     first: Candidate, firstRun: SandboxRun, degraded: bool) returns (calls: seq<Call>)
    ensures var (w1, out) := RedraftOnce(o, sha, w, n, s, parentTag, first, firstRun, degraded);
      w1.calls == w.calls + calls && RedraftShape(o, sha, n, parentTag, firstRun.branchTag, calls, out)
  {
    PublishKeepsCalls(o);
    hide Publish;
    hide VerifyDiff;
    hide GreenBuild;
    calls := [Rollback(n, firstRun.branchTag, parentTag, o.rollbackReaches(n, false))];
    var w1 := Ask(w, calls[0]);
    var (w2, r2) := Publish(o, w1, Begin(Redraft(n)));
    var reply := o.redraft(n);
    if r2.Raised? || reply.RenderFails? {
      return;
    }
    calls := calls + [Llm(n, true)];
    assert Ask(w2, Llm(n, true)).calls == w.calls + calls;
    if !reply.Drafted? {
      return;
    }
    var (w3, r3) := Publish(o, Ask(w2, Llm(n, true)), DraftEnvelope(sha, Redraft(n), s, reply.diff, degraded));
    if r3.Raised? {
      return;
    }
    var (w4, v) := VerifyDiff(o, sha, w3, n, true, reply.diff, parentTag);
    VerifyCalls(o, sha, w3, n, true, reply.diff, parentTag);
    if w4.calls == w3.calls {
      return;
    }
    calls := calls + [Branch(n, reply.diff, parentTag, o.branch(n, true))];
    assert w4.calls == w.calls + calls;
    if v.VerifyThrew? || v.ok {
      return;
    }
    calls := calls + [Rollback(n, v.branchTag, parentTag, o.rollbackReaches(n, true))];
    assert w4.calls + [calls[3]] == w.calls + calls;
  }

  /** The calls a step may make, in the only possible order: draft, verify, and after a red
      answer of the sandbox the re-draft. */
  ghost predicate CallShape(o: Oracle, sha: string -> string, n: nat, parentTag: string, calls: seq<Call>, out: StepOutcome) {
    && (|calls| > 0 ==> calls[0] == Llm(n, false))
    && (|calls| > 1 ==> SandboxCall(o, n, false, parentTag, calls[1]))
    && (|calls| > 2 ==>
          && calls[1].reply.run.Some?
          && !GreenBuild(sha, calls[1].diff, calls[1].reply.run.value)
          && RedraftShape(o, sha, n, parentTag, calls[1].reply.run.value.branchTag, calls[2..], out))
    && (|calls| <= 2 && out.StepDone? && out.accept ==>
          && |calls| == 2 && out.diff == Some(calls[1].diff) && out.run == calls[1].reply.run && out.run.Some?
          && GreenBuild(sha, out.diff.value, out.run.value))
    && (|calls| == 2 && calls[1].reply.run.Some? && out.StepDone? ==> out.accept)
    && (AllSent(o) && out.StepThrew? ==> |calls| == 0 || |calls| == 3)
  }

  /** Whatever the outside world does, a step makes at most two drafts, the second only after
      the first verification came back red and its branch was rolled back; and a step is
      accepted only on the strength of its last call, a green sandbox run of that diff. */
  lemma StepCalls(o: Oracle, sha: string -> string, w: World, n: nat, s: PlanStep, parentTag: string)
    returns (calls: seq<Call>)
    ensures var (w1, out) := RunOneStep(o, sha, w, n, s, parentTag);
      w1.calls == w.calls + calls && CallShape(o, sha, n, parentTag, calls, out)
  {
    hide Publish;
    hide VerifyDraft;
    hide RedraftShape;
    hide GreenBuild;
    PublishKeepsCalls(o);
    var (w1, r1) := Publish(o, w, Begin(Draft(n)));
    calls := [];
    if r1.Raised? || o.draft(n).RenderFails? {
      return;
    }
    var d, degraded;
    match o.draft(n) {
      case Drafted(c) => d, degraded := Some(c), false;
      case DraftDegraded(salvaged) => d, degraded := salvaged, true;
      case _ => d, degraded := None, false;
    }
    if d.None? {
      calls := [Llm(n, false)];
      return;
    }
    calls := DraftCalls(o, sha, Ask(w1, Llm(n, false)), n, s, parentTag, d.value, degraded);
    var (_, out) := VerifyDraft(o, sha, Ask(w1, Llm(n, false)), n, s, parentTag, d.value, degraded);
    if |calls| > 0 {
      assert ([Llm(n, false)] + calls)[2..] == calls[1..];
    }
    calls := [Llm(n, false)] + calls;
  }

  lemma DraftCalls(o: Oracle, sha: string -> string, w: World, n: nat, s: PlanStep, parentTag: string,
                   d: Candidate, degraded: bool) returns (calls: seq<Call>)
    requires Attempted(o, n, false) == Some(d)
    ensures var (w1, out) := VerifyDraft(o, sha, w, n, s, parentTag, d, degraded);
      && w1.calls == w.calls + calls
      && (|calls| > 0 ==> SandboxCall(o, n, false, parentTag, calls[0]))
      && (|calls| > 1 ==>
            && calls[0].reply.run.Some?
            && !GreenBuild(sha, calls[0].diff, calls[0].reply.run.value)
            && RedraftShape(o, sha, n, parentTag, calls[0].reply.run.value.branchTag, calls[1..], out))
      && (|calls| <= 1 && out.StepDone? && out.accept ==>
            && |calls| == 1 && out.diff == Some(calls[0].diff) && out.run == calls[0].reply.run && out.run.Some?
            && GreenBuild(sha, out.diff.value, out.run.value))
      && (|calls| == 1 && calls[0].reply.run.Some? && out.StepDone? ==> out.accept)
      && (AllSent(o) && out.StepThrew? ==> |calls| == 2)
  {
    hide Publish;
    hide VerifyDiff;
    hide RedraftOnce;
    hide GreenBuild;
    PublishKeepsCalls(o);
    var (w1, r1) := Publish(o, w, DraftEnvelope(sha, Draft(n), s, d, degraded));
    calls := [];
    if r1.Raised? {
      return;
    }
    var (w2, v) := VerifyDiff(o, sha, w1, n, false, d, parentTag);
    VerifyCalls(o, sha, w1, n, false, d, parentTag);
    assert v.Verified? || v.VerifyThrew?;
    if w2.calls == w1.calls {
      return;
    }
    var first := Branch(n, d, parentTag, o.branch(n, false));
    calls := [first];
    if v.VerifyThrew? || v.run.None? || v.ok {
      return;
    }
    var more := RedraftCalls(o, sha, w2, n, s, parentTag, d, v.run.value, degraded);
    calls := [first] + more;
    assert calls[1..] == more;
  }

  // ------------------------------------------------------------------- green builds only

  ghost predicate AllGreen(sha: string -> string, accepted: seq<AcceptedStep>) {
    forall e :: e in accepted ==> GreenBuild(sha, e.diff, e.run)
  }

  lemma {:induction false} LoopGreen(o: Oracle, sha: string -> string, steps: seq<PlanStep>, i: nat, p: Progress, parentTag: string)
    requires i <= |steps| && AllGreen(sha, p.accepted)
    ensures StepLoop(o, sha, steps, i, p, parentTag).LoopDone? ==>
              AllGreen(sha, StepLoop(o, sha, steps, i, p, parentTag).p.accepted)
    decreases |steps| - i
  {
    hide RunOneStep;
    if i < |steps| && !o.overBudget(i) {
      var (w, out) := RunOneStep(o, sha, p.w, i, steps[i], parentTag);
      var calls := StepCalls(o, sha, p.w, i, steps[i], parentTag);
      var next := Record(o, p, i, steps[i], w, out);
      if next.LoopDone? {
        LoopGreen(o, sha, steps, i + 1, next.p, parentTag);
      }
    }
  }

  /** The proposal a run returns is the composition of what it accepted, or there is none. */
  ghost predicate Composes(ids: seq<string>, accepted: seq<AcceptedStep>, proposal: Option<Compose.Proposal>) {
    proposal.Some? ==>
      && proposal.value.unifiedDiff == Compose.Composed(ids, accepted).unifiedDiff
      && proposal.value.conflicts == Compose.Composed(ids, accepted).conflicts
  }

  lemma LedgerKeeps(o: Oracle, t: Tail, k: nat)
    ensures var t1 := DoLedger(o, t, k);
      t1.w.calls == t.w.calls && t1.proposal == t.proposal && (t.degraded ==> t1.degraded)
  {
    PublishKeepsCalls(o);
    hide Publish;
  }

  lemma PrKeeps(o: Oracle, ids: seq<string>, accepted: seq<AcceptedStep>, rejected: seq<RejectedStep>, t: Tail, k: nat)
    requires Composes(ids, accepted, t.proposal)
    ensures var t1 := DoPr(o, ids, accepted, rejected, t, k);
      t1.w.calls == t.w.calls && Composes(ids, accepted, t1.proposal) && (t.degraded ==> t1.degraded)
  {
    PublishKeepsCalls(o);
    hide Publish;
    hide Compose.Composed;
  }

  /** Ledger and PR add no calls and change neither list; the flag is never cleared. */
  lemma FinishKeeps(o: Oracle, ids: seq<string>, p: Progress)
    ensures var out := Finish(o, ids, p);
      && out.w.calls == p.w.calls
      && (out.Returned? ==>
            && out.result.accepted == p.accepted && out.result.rejected == p.rejected
            && Composes(ids, p.accepted, out.result.proposal)
            && (p.degraded ==> out.result.degraded))
  {
    hide DoLedger;
    hide DoPr;
    hide Composes;
    var t0 := Tail(p.w, p.degraded, None, Quiet);
    assert Composes(ids, p.accepted, None) by { ComposesNone(ids, p.accepted); }
    LedgerKeeps(o, t0, 0);
    var t1 := DoLedger(o, t0, 0);
    if t1.r.Raised? {
      LastResortKeeps(o, ids, p.accepted, p.rejected, t1, StepId.Ledger);
    } else {
      PrKeeps(o, ids, p.accepted, p.rejected, t1, 0);
      var t2 := DoPr(o, ids, p.accepted, p.rejected, t1, 0);
      if t2.r.Raised? {
        LastResortKeeps(o, ids, p.accepted, p.rejected, t2, StepId.Pr);
      }
    }
  }

  lemma ComposesNone(ids: seq<string>, accepted: seq<AcceptedStep>)
    ensures Composes(ids, accepted, None)
  {
  }

  lemma LastResortKeeps(o: Oracle, ids: seq<string>, accepted: seq<AcceptedStep>, rejected: seq<RejectedStep>, t: Tail, current: StepId)
    requires t.r.Raised? && Composes(ids, accepted, t.proposal)
    ensures var out := LastResort(o, ids, accepted, rejected, t, current);
      && out.w.calls == t.w.calls
      && (out.Returned? ==>
            && out.result.accepted == accepted && out.result.rejected == rejected
            && Composes(ids, accepted, out.result.proposal)
            && out.result.degraded)
  {
    hide DoLedger;
    hide DoPr;
    hide Composes;
    if !t.r.missing {
      var t0 := Tail(PublishIgnored(o, t.w, FailedEnvelope(current)), true, t.proposal, Quiet);
      LedgerKeeps(o, t0, 1);
      PrKeeps(o, ids, accepted, rejected, DoLedger(o, t0, 1), 1);
    }
  }

  lemma NothingComposed(ids: seq<string>)
    ensures Compose.Composed(ids, []).unifiedDiff == ""
  {
  }

  /** The composed diff joins the trimmed diffs of accepted steps. */
  lemma ChunksAreAccepted(ids: seq<string>, accepted: seq<AcceptedStep>)
    ensures accepted == [] ==> Compose.Composed(ids, accepted).unifiedDiff == ""
    ensures exists kept: seq<AcceptedStep> ::
      Compose.Joins(kept, Compose.Composed(ids, accepted).unifiedDiff) && forall e :: e in kept ==> e in accepted
  {
    NothingComposed(ids);
    Compose.ComposedJoins(ids, accepted);
    hide StableSort;
    hide Compose.Winners;
    hide Compose.Joins;
    hide Compose.Composed;
    var sorted := Compose.SortedByPlan(ids, accepted);
    SortMembers(accepted, Compose.PlanOrder(ids));
    Compose.WinnersAreMembers(sorted);
    assert forall e :: e in Compose.Winners(sorted) ==> e in accepted;
  }

  /** The central claim of the system: only diffs whose own sandbox run went green reach the
      pull request, whatever the model, the sandbox, the ledger and the stream do. */
  lemma GreenBuildsOnly(o: Oracle, sha: string -> string, valid: bool, title: string, cap: int)
    ensures var out := RunTicket(o, sha, valid, title, cap);
      out.Returned? ==>
        && AllGreen(sha, out.result.accepted)
        && (out.result.proposal.Some? && out.result.accepted == [] ==> out.result.proposal.value.unifiedDiff == "")
        && (out.result.proposal.Some? ==> exists kept: seq<AcceptedStep> ::
              && Compose.Joins(kept, out.result.proposal.value.unifiedDiff)
              && forall e :: e in kept ==> e in out.result.accepted && GreenBuild(sha, e.diff, e.run))
  {
    hide Compose.Joins;
    var pre := Prepare(o, valid, title, cap);
    if pre.Ready? {
      var steps := PlanSteps(o, title, cap);
      var p0 := Progress(pre.w, pre.degraded, [], []);
      LoopGreen(o, sha, steps, 0, p0, pre.parentTag);
      var loop := StepLoop(o, sha, steps, 0, p0, pre.parentTag);
      if loop.LoopDone? {
        FinishKeeps(o, StepNames(steps), loop.p);
        ChunksAreAccepted(StepNames(steps), loop.p.accepted);
      }
    }
  }

  // ------------------------------------------------------------------- conservation of plan steps

  function AcceptedSteps(accepted: seq<AcceptedStep>): seq<PlanStep> { Map(accepted, (e: AcceptedStep) => e.step) }

  function RejectedSteps(rejected: seq<RejectedStep>): seq<PlanStep> { Map(rejected, (e: RejectedStep) => e.step) }

  /** `mask` says of every plan step whether it was accepted; both lists keep plan order. */
  ghost predicate Split(steps: seq<PlanStep>, mask: seq<bool>, accepted: seq<AcceptedStep>, rejected: seq<RejectedStep>) {
    && |mask| == |steps|
    && AcceptedSteps(accepted) == Select(steps, mask, true)
    && RejectedSteps(rejected) == Select(steps, mask, false)
  }

  lemma SplitAccept(steps: seq<PlanStep>, mask: seq<bool>, accepted: seq<AcceptedStep>, rejected: seq<RejectedStep>, e: AcceptedStep)
    requires Split(steps, mask, accepted, rejected)
    ensures Split(steps + [e.step], mask + [true], accepted + [e], rejected)
  {
    SelectAppend(steps, mask, e.step, true, true);
    SelectAppend(steps, mask, e.step, true, false);
    MapAppend(accepted, e, (e: AcceptedStep) => e.step);
  }

  lemma SplitReject(steps: seq<PlanStep>, mask: seq<bool>, accepted: seq<AcceptedStep>, rejected: seq<RejectedStep>, e: RejectedStep)
    requires Split(steps, mask, accepted, rejected)
    ensures Split(steps + [e.step], mask + [false], accepted, rejected + [e])
  {
    SelectAppend(steps, mask, e.step, false, true);
    SelectAppend(steps, mask, e.step, false, false);
    MapAppend(rejected, e, (e: RejectedStep) => e.step);
  }

  predicate Accepts(out: StepOutcome) { out.StepDone? && out.accept && out.diff.Some? && out.run.Some? }

  /** Recording puts the step on the list its outcome says. */
  lemma RecordSplits(o: Oracle, steps: seq<PlanStep>, i: nat, p: Progress, w: World, out: StepOutcome, mask: seq<bool>)
    requires i < |steps| && Split(steps[..i], mask, p.accepted, p.rejected)
    ensures var next := Record(o, p, i, steps[i], w, out);
      next.LoopDone? ==> Split(steps[..i + 1], mask + [Accepts(out)], next.p.accepted, next.p.rejected)
  {
    hide Split;
    hide Publish;
    assert steps[..i + 1] == steps[..i] + [steps[i]];
    var next := Record(o, p, i, steps[i], w, out);
    if next.LoopDone? {
      if Accepts(out) {
        SplitAccept(steps[..i], mask, p.accepted, p.rejected, next.p.accepted[|p.accepted|]);
      } else {
        SplitReject(steps[..i], mask, p.accepted, p.rejected, next.p.rejected[|p.rejected|]);
      }
    }
  }

  function Never(n: nat): seq<bool> { if n == 0 then [] else [false] + Never(n - 1) }

  lemma {:induction false} SplitRejectAll(steps: seq<PlanStep>, mask: seq<bool>, accepted: seq<AcceptedStep>,
                                          rejected: seq<RejectedStep>, rest: seq<PlanStep>)
    requires Split(steps, mask, accepted, rejected)
    ensures |Never(|rest|)| == |rest|
    ensures Split(steps + rest, mask + Never(|rest|), accepted, rejected + Map(rest, BudgetReject))
    decreases |rest|
  {
    hide Split;
    hide Select;
    if rest == [] {
      assert steps + rest == steps && mask + Never(0) == mask;
      assert rejected + Map(rest, BudgetReject) == rejected;
    } else {
      var e := BudgetReject(rest[0]);
      SplitReject(steps, mask, accepted, rejected, e);
      SplitRejectAll(steps + [rest[0]], mask + [false], accepted, rejected + [e], rest[1..]);
      assert steps + [rest[0]] + rest[1..] == steps + rest;
      assert mask + [false] + Never(|rest| - 1) == mask + Never(|rest|);
      assert rejected + [e] + Map(rest[1..], BudgetReject) == rejected + Map(rest, BudgetReject);
    }
  }

  /** The verdict list of a loop that started with `mask` for the steps before `i`. */
  lemma {:induction false} LoopSplits(o: Oracle, sha: string -> string, steps: seq<PlanStep>, i: nat, p: Progress,
                                      parentTag: string, mask: seq<bool>) returns (final: seq<bool>)
    requires i <= |steps| && Split(steps[..i], mask, p.accepted, p.rejected)
    ensures var loop := StepLoop(o, sha, steps, i, p, parentTag);
      loop.LoopDone? ==> Split(steps, final, loop.p.accepted, loop.p.rejected)
    decreases |steps| - i
  {
    hide RunOneStep;
    hide Record;
    hide Split;
    final := mask;
    if i == |steps| {
      assert steps[..i] == steps;
    } else if o.overBudget(i) {
      SplitRejectAll(steps[..i], mask, p.accepted, p.rejected, steps[i..]);
      assert steps[..i] + steps[i..] == steps;
      final := mask + Never(|steps| - i);
    } else {
      var (w, out) := RunOneStep(o, sha, p.w, i, steps[i], parentTag);
      RecordSplits(o, steps, i, p, w, out, mask);
      var next := Record(o, p, i, steps[i], w, out);
      if next.LoopDone? {
        final := LoopSplits(o, sha, steps, i + 1, next.p, parentTag, mask + [Accepts(out)]);
      }
    }
  }

  lemma {:induction false} SelectTotal<T>(s: seq<T>, mask: seq<bool>)
    requires |s| == |mask|
    ensures |Select(s, mask, true)| + |Select(s, mask, false)| == |s|
  {
    if s != [] {
      SelectTotal(s[..|s| - 1], mask[..|s| - 1]);
    }
  }

  /** The plan before the step cap: the planner's own steps, or one fallback step that intends the
      first 120 characters of the ticket's title. */
  ghost predicate Proposed(o: Oracle, title: string, plan: seq<PlanStep>) {
    if o.planner.Planned? then plan == o.planner.steps
    else
      && |plan| == 1
      && plan[0].id == "s1" && plan[0].file == "fallback.txt"
      && plan[0].acceptance == "sandbox test command exits 0"
      && plan[0].intent <= title && |plan[0].intent| == (if |title| <= 120 then |title| else 120)
  }

  /** What a step cap leaves of `n` steps: at most `cap` of them, or, when the cap is negative, all
      but `-cap`. */
  ghost predicate LeftBy(cap: int, n: nat, k: nat) {
    && (0 <= n <= cap ==> k == n)
    && (0 <= cap < n ==> k == cap)
    && (-(n as int) <= cap < 0 ==> k == n + cap)
    && (cap < -(n as int) ==> k == 0)
  }

  /** The steps a run works through are the first ones of the proposed plan. */
  lemma PlanIsCut(o: Oracle, title: string, cap: int) returns (plan: seq<PlanStep>, k: nat)
    ensures Proposed(o, title, plan) && LeftBy(cap, |plan|, k)
    ensures k <= |plan| && PlanSteps(o, title, cap) == plan[..k]
  {
    plan := if o.planner.Planned? then o.planner.steps else FallbackPlan(title);
    k := |PlanSteps(o, title, cap)|;
  }

  /** Accepted and rejected steps are complementary, order-preserving parts of the first `k` steps
      of the proposed plan. Their number respects the step cap exactly when the cap is not
      negative: a negative `MERGEREADY_MAX_STEPS` cuts from the end of the plan instead. */
  lemma PlanConserved(o: Oracle, sha: string -> string, title: string, cap: int) returns (plan: seq<PlanStep>, k: nat)
    ensures Proposed(o, title, plan) && LeftBy(cap, |plan|, k) && k <= |plan|
    ensures var out := RunTicket(o, sha, true, title, cap);
      out.Returned? ==>
        && (exists mask :: Split(plan[..k], mask, out.result.accepted, out.result.rejected))
        && |out.result.accepted| + |out.result.rejected| == k
        && (|out.result.accepted| + |out.result.rejected| <= cap <==> 0 <= cap)
  {
    plan, k := PlanIsCut(o, title, cap);
    hide Proposed;
    var pre := Prepare(o, true, title, cap);
    hide Prepare;
    hide Finish;
    PrepareInvalid(o, title, cap);
    if pre.Ready? {
      var steps := PlanSteps(o, title, cap);
      hide PlanSteps;
      var p0 := Progress(pre.w, pre.degraded, [], []);
      var mask := LoopSplits(o, sha, steps, 0, p0, pre.parentTag, []);
      var loop := StepLoop(o, sha, steps, 0, p0, pre.parentTag);
      if loop.LoopDone? {
        FinishKeeps(o, StepNames(steps), loop.p);
        SelectTotal(steps, mask);
        assert |AcceptedSteps(loop.p.accepted)| == |loop.p.accepted|;
        assert |RejectedSteps(loop.p.rejected)| == |loop.p.rejected|;
      }
    }
  }

  // ------------------------------------------------------------------- the budget stop

  lemma AskPhaseCalls(o: Oracle, w: World, degraded: bool, id: StepId, reply: PhaseReply, lost: Status)
    ensures AskPhase(o, w, degraded, id, reply, lost).0.w.calls == w.calls
  {
    PublishKeepsCalls(o);
    hide Publish;
  }

  lemma OtherPhaseCalls(o: Oracle, w: World, degraded: bool, valid: bool, steps: seq<PlanStep>)
    ensures OpenTicket(o, w, valid).w.calls == w.calls
    ensures PackContext(o, w, degraded).w.calls == w.calls
    ensures MakePlan(o, w, degraded, steps).w.calls == w.calls
  {
    PublishKeepsCalls(o);
    hide Publish;
  }

  lemma PrepareCalls(o: Oracle, valid: bool, title: string, cap: int)
    ensures var pre := Prepare(o, valid, title, cap); (if pre.Ready? then pre.w.calls else pre.out.w.calls) == []
  {
    hide OpenTicket;
    hide AskPhase;
    hide PackContext;
    hide MakePlan;
    var steps := PlanSteps(o, title, cap);
    OtherPhaseCalls(o, Fresh, false, valid, steps);
    var f0 := OpenTicket(o, Fresh, valid);
    if f0.Go? {
      AskPhaseCalls(o, f0.w, f0.degraded, StepId.Grounding, o.grounding, Done);
      var f1 := AskPhase(o, f0.w, f0.degraded, StepId.Grounding, o.grounding, Done).0;
      if f1.Go? {
        AskPhaseCalls(o, f1.w, f1.degraded, StepId.Baseline, o.baseline, Failed);
        var f2 := AskPhase(o, f1.w, f1.degraded, StepId.Baseline, o.baseline, Failed).0;
        if f2.Go? {
          OtherPhaseCalls(o, f2.w, f2.degraded, valid, steps);
          var f3 := PackContext(o, f2.w, f2.degraded);
          if f3.Go? {
            OtherPhaseCalls(o, f3.w, f3.degraded, valid, steps);
          }
        }
      }
    }
  }

  lemma PrepareInvalid(o: Oracle, title: string, cap: int)
    ensures var pre := Prepare(o, true, title, cap); pre.Stopped? ==> pre.out.RunThrew?
  {
    hide OpenTicket;
    hide AskPhase;
    hide PackContext;
    hide MakePlan;
  }

  /** Once the budget check trips at step `b`: no call for `b` or any later step, and exactly
      those steps are rejected as budget-exhausted. */
  lemma {:induction false} LoopStops(o: Oracle, sha: string -> string, steps: seq<PlanStep>, i: nat, p: Progress,
                                     parentTag: string, b: nat)
    requires i <= b < |steps| && o.overBudget(b) && forall k :: i <= k < b ==> !o.overBudget(k)
    requires |p.accepted| + |p.rejected| == i
    requires forall c :: c in p.w.calls ==> c.n < b
    requires forall e :: e in p.rejected ==> e.why != BudgetExhausted
    ensures var loop := StepLoop(o, sha, steps, i, p, parentTag);
      loop.LoopDone? ==>
        && (forall c :: c in loop.p.w.calls ==> c.n < b)
        && exists before :: StoppedAt(steps, b, before, loop.p.accepted, loop.p.rejected)
    decreases b - i
  {
    hide RunOneStep;
    hide Record;
    if i == b {
      assert StoppedAt(steps, b, p.rejected, p.accepted, p.rejected + Map(steps[b..], BudgetReject));
    } else {
      var (w, out) := RunOneStep(o, sha, p.w, i, steps[i], parentTag);
      var calls := StepCalls(o, sha, p.w, i, steps[i], parentTag);
      ShapeOwner(o, sha, i, parentTag, calls, out);
      RecordKeeps(o, p, i, steps[i], w, out);
      var next := Record(o, p, i, steps[i], w, out);
      if next.LoopDone? {
        LoopStops(o, sha, steps, i + 1, next.p, parentTag, b);
      }
    }
  }

  ghost predicate StoppedAt(steps: seq<PlanStep>, b: nat, before: seq<RejectedStep>,
                            accepted: seq<AcceptedStep>, rejected: seq<RejectedStep>)
    requires b <= |steps|
  {
    && rejected == before + Map(steps[b..], BudgetReject)
    && |accepted| + |before| == b
    && forall e :: e in before ==> e.why != BudgetExhausted
  }

  /** An iteration that goes on adds its step to one of the lists and makes no call. */
  lemma RecordKeeps(o: Oracle, p: Progress, n: nat, s: PlanStep, w: World, out: StepOutcome)
    ensures var next := Record(o, p, n, s, w, out);
      next.LoopDone? ==>
        && next.p.w.calls == w.calls
        && |next.p.accepted| + |next.p.rejected| == |p.accepted| + |p.rejected| + 1
        && ((forall e :: e in p.rejected ==> e.why != BudgetExhausted) ==>
              forall e :: e in next.p.rejected ==> e.why != BudgetExhausted)
  {
  }

  lemma ShapeOwner(o: Oracle, sha: string -> string, n: nat, parentTag: string, calls: seq<Call>, out: StepOutcome)
    requires CallShape(o, sha, n, parentTag, calls, out)
    ensures forall c :: c in calls ==> c.n == n
  {
    forall k | 0 <= k < |calls|
      ensures calls[k].n == n
    {
      if k >= 2 {
        assert calls[k] == calls[2..][k - 2];
      }
    }
  }

  lemma BudgetStopIsFinal(o: Oracle, sha: string -> string, title: string, cap: int, b: nat)
    requires b < |PlanSteps(o, title, cap)|
    requires o.overBudget(b) && forall k :: 0 <= k < b ==> !o.overBudget(k)
    ensures var out := RunTicket(o, sha, true, title, cap);
      out.Returned? ==>
        && out.result.degraded
        && (forall c :: c in out.w.calls ==> c.n < b)
        && exists before :: StoppedAt(PlanSteps(o, title, cap), b, before, out.result.accepted, out.result.rejected)
  {
    var pre := Prepare(o, true, title, cap);
    if pre.Ready? {
      var steps := PlanSteps(o, title, cap);
      var p0 := Progress(pre.w, pre.degraded, [], []);
      PrepareCalls(o, true, title, cap);
      LoopStops(o, sha, steps, 0, p0, pre.parentTag, b);
      var loop := StepLoop(o, sha, steps, 0, p0, pre.parentTag);
      if loop.LoopDone? {
        FinishKeeps(o, StepNames(steps), loop.p);
        StopDegrades(o, sha, steps, 0, p0, pre.parentTag, b);
      }
    }
  }

  lemma {:induction false} StopDegrades(o: Oracle, sha: string -> string, steps: seq<PlanStep>, i: nat, p: Progress,
                                        parentTag: string, b: nat)
    requires i <= b < |steps| && o.overBudget(b)
    ensures var loop := StepLoop(o, sha, steps, i, p, parentTag); loop.LoopDone? ==> loop.p.degraded
    decreases b - i
  {
    hide RunOneStep;
    hide Record;
    if i < b && !o.overBudget(i) {
      var (w, out) := RunOneStep(o, sha, p.w, i, steps[i], parentTag);
      var next := Record(o, p, i, steps[i], w, out);
      if next.LoopDone? {
        StopDegrades(o, sha, steps, i + 1, next.p, parentTag, b);
      }
    }
  }
}
