/** When a run returns a result and when it raises. */
module RunReturns {
  import opened Sequences
  import opened Gate
  import opened StepIds
  import opened Orchestrator
  import Compose
  import RunDegraded
  import RunSafety

  /** A prompt of step `n` cannot be rendered because a module is missing: the first one, or that
      of the re-draft when a red build asks for one. */
  predicate StepHalts(o: Oracle, sha: string -> string, n: nat) {
    || o.draft(n) == RenderFails(true)
    || (&& Attempted(o, n, false).Some? && o.branch(n, false).run.Some?
        && !GreenBuild(sha, Attempted(o, n, false).value, o.branch(n, false).run.value)
        && o.redraft(n) == RenderFails(true))
  }

  /** The loop gets to step `n`, unless an earlier step halts it. */
  ghost predicate Reached(o: Oracle, steps: seq<PlanStep>, n: nat) {
    n < |steps| && forall m :: 0 <= m <= n ==> !o.overBudget(m)
  }

  lemma RedraftHalts(o: Oracle, sha: string -> string, w: World, n: nat, s: PlanStep, parentTag: string,
                     first: Candidate, firstRun: SandboxRun, degraded: bool)
    requires AllSent(o)
    ensures var out := RedraftOnce(o, sha, w, n, s, parentTag, first, firstRun, degraded).1;
      out == StepThrew(true) <==> o.redraft(n) == RenderFails(true)
  {
    RunDegraded.SentFacts(o);
    hide Publish;
    if o.redraft(n).Drafted? {
      var d := o.redraft(n).diff;
      var w1 := Ask(w, Rollback(n, firstRun.branchTag, parentTag, o.rollbackReaches(n, false)));
      var w2 := Ask(Publish(o, w1, Begin(Redraft(n))).0, Llm(n, true));
      var w3 := Publish(o, w2, DraftEnvelope(sha, Redraft(n), s, d, degraded)).0;
      RunSafety.VerifyCalls(o, sha, w3, n, true, d, parentTag);
      hide VerifyDiff;
      hide AllSent;
    }
  }

  lemma DraftHalts(o: Oracle, sha: string -> string, w: World, n: nat, s: PlanStep, parentTag: string,
                   d: Candidate, degraded: bool)
    requires AllSent(o) && Attempted(o, n, false) == Some(d) && !o.draft(n).RenderFails?
    ensures var out := VerifyDraft(o, sha, w, n, s, parentTag, d, degraded).1;
      out == StepThrew(true) <==> StepHalts(o, sha, n)
  {
    RunDegraded.SentFacts(o);
    var w1 := Publish(o, w, DraftEnvelope(sha, Draft(n), s, d, degraded)).0;
    RunSafety.VerifyCalls(o, sha, w1, n, false, d, parentTag);
    var (w2, v) := VerifyDiff(o, sha, w1, n, false, d, parentTag);
    hide Publish;
    hide VerifyDiff;
    hide GreenBuild;
    hide AllSent;
    if v.run.Some? && !v.ok {
      RedraftHalts(o, sha, w2, n, s, parentTag, d, v.run.value, degraded);
    }
    hide RedraftOnce;
  }

  lemma HaltsExactly(o: Oracle, sha: string -> string, w: World, n: nat, s: PlanStep, parentTag: string)
    requires AllSent(o)
    ensures RunOneStep(o, sha, w, n, s, parentTag).1 == StepThrew(true) <==> StepHalts(o, sha, n)
  {
    RunDegraded.SentFacts(o);
    hide Publish;
    hide VerifyDraft;
    hide GreenBuild;
    hide AllSent;
    var w2 := Ask(Publish(o, w, Begin(Draft(n))).0, Llm(n, false));
    match o.draft(n) {
      case DraftDegraded(salvaged) =>
        if salvaged.Some? {
          DraftHalts(o, sha, w2, n, s, parentTag, salvaged.value, true);
        }
      case Drafted(d) => DraftHalts(o, sha, w2, n, s, parentTag, d, false);
      case _ =>
    }
  }

  lemma {:induction false} LoopHalts(o: Oracle, sha: string -> string, steps: seq<PlanStep>, i: nat, p: Progress, parentTag: string)
    requires AllSent(o) && i <= |steps|
    requires forall m :: 0 <= m < i ==> !o.overBudget(m) && !StepHalts(o, sha, m)
    ensures StepLoop(o, sha, steps, i, p, parentTag).LoopCrashed? <==> exists n :: Reached(o, steps, n) && StepHalts(o, sha, n)
    decreases |steps| - i
  {
    hide RunOneStep;
    hide StepHalts;
    hide AllSent;
    if i < |steps| && !o.overBudget(i) {
      var (w, out) := RunOneStep(o, sha, p.w, i, steps[i], parentTag);
      HaltsExactly(o, sha, p.w, i, steps[i], parentTag);
      assert Reached(o, steps, i);
      var next := Record(o, p, i, steps[i], w, out);
      if next.LoopDone? {
        LoopHalts(o, sha, steps, i + 1, next.p, parentTag);
      }
    } else {
      forall n | Reached(o, steps, n)
        ensures !StepHalts(o, sha, n)
      {
      }
    }
  }

  lemma FinishReturns(o: Oracle, ids: seq<string>, p: Progress)
    requires AllSent(o)
    ensures Finish(o, ids, p).Returned? <==> o.ledger(0) != Malformed(true) && o.pr(0) != ComposeRaises(true)
  {
    RunDegraded.SentFacts(o);
    hide Publish;
    hide AllSent;
    hide Compose.Composed;
    var t0 := Tail(p.w, p.degraded, None, Quiet);
    assert DoLedger(o, t0, 0).r == if o.ledger(0) == Malformed(true) then Raised(true) else Quiet;
    var t1 := DoLedger(o, t0, 0);
    assert DoPr(o, ids, p.accepted, p.rejected, t1, 0).r == if o.pr(0) == ComposeRaises(true) then Raised(true) else Quiet;
    hide DoLedger;
    hide DoPr;
  }

  lemma PhaseReturns(o: Oracle, w: World, degraded: bool, id: StepId, reply: PhaseReply, lost: Status)
    requires AllSent(o)
    ensures AskPhase(o, w, degraded, id, reply, lost).0.Go? <==> reply != Malformed(true)
  {
    RunDegraded.SentFacts(o);
    hide Publish;
  }

  lemma OtherPhaseReturns(o: Oracle, w: World, degraded: bool, valid: bool, steps: seq<PlanStep>)
    requires AllSent(o)
    ensures OpenTicket(o, w, valid).Go?
    ensures PackContext(o, w, degraded).Go? <==> o.pack.Quiet?
    ensures MakePlan(o, w, degraded, steps).Go? <==> o.planner != NoPlan(true)
  {
    RunDegraded.SentFacts(o);
    hide Publish;
  }

  /** No phase before the loop misses a module, and context packing works. */
  predicate Prepares(o: Oracle) {
    o.grounding != Malformed(true) && o.baseline != Malformed(true) && o.pack.Quiet? && o.planner != NoPlan(true)
  }

  lemma PrepareReturns(o: Oracle, title: string, cap: int)
    requires AllSent(o)
    ensures Prepare(o, true, title, cap).Ready? <==> Prepares(o)
  {
    hide OpenTicket;
    hide AskPhase;
    hide PackContext;
    hide MakePlan;
    hide AllSent;
    var steps := PlanSteps(o, title, cap);
    OtherPhaseReturns(o, Fresh, false, true, steps);
    var f0 := OpenTicket(o, Fresh, true);
    PhaseReturns(o, f0.w, f0.degraded, StepId.Grounding, o.grounding, Done);
    var f1 := AskPhase(o, f0.w, f0.degraded, StepId.Grounding, o.grounding, Done).0;
    if f1.Go? {
      PhaseReturns(o, f1.w, f1.degraded, StepId.Baseline, o.baseline, Failed);
      var f2 := AskPhase(o, f1.w, f1.degraded, StepId.Baseline, o.baseline, Failed).0;
      if f2.Go? {
        OtherPhaseReturns(o, f2.w, f2.degraded, true, steps);
        var f3 := PackContext(o, f2.w, f2.degraded);
        if f3.Go? {
          OtherPhaseReturns(o, f3.w, f3.degraded, true, steps);
        }
      }
    }
  }

  /** When the stream delivers, a run with a valid ticket returns a result if and only if no
      phase and no step it reaches misses a module, and context packing works: every other
      failure of the model, the sandbox, the ledger or the pull request ends in a result. A run
      with an invalid ticket always returns. */
  lemma ReturnsExactly(o: Oracle, sha: string -> string, title: string, cap: int)
    requires AllSent(o)
    ensures RunTicket(o, sha, false, title, cap).Returned?
    ensures RunTicket(o, sha, true, title, cap).Returned? <==>
      && Prepares(o)
      && (forall n :: Reached(o, PlanSteps(o, title, cap), n) ==> !StepHalts(o, sha, n))
      && o.ledger(0) != Malformed(true) && o.pr(0) != ComposeRaises(true)
  {
    var steps := PlanSteps(o, title, cap);
    OtherPhaseReturns(o, Fresh, false, false, steps);
    PrepareReturns(o, title, cap);
    RunSafety.PrepareInvalid(o, title, cap);
    hide OpenTicket;
    hide AskPhase;
    hide PackContext;
    hide MakePlan;
    hide StepLoop;
    hide Finish;
    hide StepHalts;
    hide Prepares;
    hide AllSent;
    hide Reached;
    assert RunTicket(o, sha, false, title, cap).Returned?;
    hide Prepare;
    var pre := Prepare(o, true, title, cap);
    if pre.Ready? {
      var p0 := Progress(pre.w, pre.degraded, [], []);
      LoopHalts(o, sha, steps, 0, p0, pre.parentTag);
      var loop := StepLoop(o, sha, steps, 0, p0, pre.parentTag);
      if loop.LoopDone? {
        FinishReturns(o, StepNames(steps), loop.p);
      }
    }
  }

  // ------------------------------------------------------------------- the reported link

  /** A proposal that carries a link carries one that the pull-request service gave. */
  ghost predicate LinkGiven(o: Oracle, proposal: Option<Compose.Proposal>) {
    proposal.Some? && proposal.value.url.Some? ==> exists k: nat :: o.pr(k) == Published(proposal.value.url)
  }

  lemma PrLinks(o: Oracle, ids: seq<string>, accepted: seq<AcceptedStep>, rejected: seq<RejectedStep>, t: Tail, k: nat)
    requires LinkGiven(o, t.proposal)
    ensures LinkGiven(o, DoPr(o, ids, accepted, rejected, t, k).proposal)
    ensures var t1 := DoPr(o, ids, accepted, rejected, t, k);
      AllSent(o) && t1.r.Quiet? && !o.pr(k).ComposeRaises? ==>
        t1.proposal.Some? && t1.proposal.value.url == (if o.pr(k).Published? then o.pr(k).url else None)
  {
    hide Compose.Composed;
    assert o.pr(k).Published? ==> o.pr(k) == Published(o.pr(k).url);
  }

  lemma LedgerLinks(o: Oracle, t: Tail, k: nat)
    ensures DoLedger(o, t, k).proposal == t.proposal
  {
  }

  /** The link a returned run reports is one the pull-request service published; when the stream
      delivers and the composer does not fail, it is exactly the published one, if any. */
  lemma LinkReported(o: Oracle, sha: string -> string, title: string, cap: int)
    requires RunTicket(o, sha, true, title, cap).Returned?
    ensures var proposal := RunTicket(o, sha, true, title, cap).result.proposal;
      && LinkGiven(o, proposal)
      && (AllSent(o) && !o.pr(0).ComposeRaises? ==>
            proposal.Some? && proposal.value.url == (if o.pr(0).Published? then o.pr(0).url else None))
  {
    hide Prepare;
    hide StepLoop;
    RunSafety.PrepareInvalid(o, title, cap);
    var steps := PlanSteps(o, title, cap);
    var ids := StepNames(steps);
    hide PlanSteps;
    var pre := Prepare(o, true, title, cap);
    var p := StepLoop(o, sha, steps, 0, Progress(pre.w, pre.degraded, [], []), pre.parentTag).p;
    FinishLinks(o, ids, p);
    hide Finish;
    hide LinkGiven;
  }

  lemma FinishLinks(o: Oracle, ids: seq<string>, p: Progress)
    requires Finish(o, ids, p).Returned?
    ensures var proposal := Finish(o, ids, p).result.proposal;
      && LinkGiven(o, proposal)
      && (AllSent(o) && !o.pr(0).ComposeRaises? ==>
            proposal.Some? && proposal.value.url == (if o.pr(0).Published? then o.pr(0).url else None))
  {
    hide DoPr;
    var t0 := Tail(p.w, p.degraded, None, Quiet);
    var t1 := DoLedger(o, t0, 0);
    LedgerLinks(o, t0, 0);
    PrLinks(o, ids, p.accepted, p.rejected, t1, 0);
    if AllSent(o) {
      RunDegraded.LedgerSays(o, t0, 0);
      RunDegraded.PrSays(o, ids, p.accepted, p.rejected, t1, 0);
    }
    var t2 := if t1.r.Raised? then t1 else DoPr(o, ids, p.accepted, p.rejected, t1, 0);
    var current := if t1.r.Raised? then StepId.Ledger else StepId.Pr;
    if t2.r.Raised? && !t2.r.missing {
      var t3 := Tail(PublishIgnored(o, t2.w, FailedEnvelope(current)), true, t2.proposal, Quiet);
      LedgerLinks(o, t3, 1);
      PrLinks(o, ids, p.accepted, p.rejected, DoLedger(o, t3, 1), 1);
    }
    hide DoLedger;
    hide LinkGiven;
    hide AllSent;
  }
}
