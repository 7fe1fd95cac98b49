/** Invariants of the event stream: whatever one publish keeps, a whole run keeps. */
module RunInvariant {
  import opened Sequences
  import opened Gate
  import opened StepIds
  import opened Orchestrator
  import RunSafety

  /** A statement about the delivered log and the number of publishes asked for. */
  type Invariant = (seq<Envelope>, nat) -> bool

  /** Publishing any envelope of the kind `q` keeps `inv`, whatever the stream answers. */
  ghost predicate Keeps(o: Oracle, q: Envelope -> bool, inv: Invariant) {
    forall w: World, e: Envelope {:trigger Publish(o, w, e)} ::
      inv(w.log, w.publishes) && q(e) ==> inv(Publish(o, w, e).0.log, Publish(o, w, e).0.publishes)
  }

  predicate OfStep(id: StepId) { id.Draft? || id.Verify? || id.Redraft? || id.Reverify? }

  ghost predicate CoversSteps(q: Envelope -> bool) { forall e: Envelope :: OfStep(e.id) ==> q(e) }

  /** `q` holds of everything a run publishes outside its steps: bare phase envelopes, failure
      reports, the plan, and the PR envelopes of this accepted list. */
  ghost predicate CoversPhases(q: Envelope -> bool, names: seq<string>, accepted: seq<AcceptedStep>) {
    && (forall e: Envelope :: !OfStep(e.id) && e.payload.NoPayload? && (e.id == Planning ==> e.status == Started) ==> q(e))
    && (forall e: Envelope :: !OfStep(e.id) && e.payload.Reason? && e.status == Failed ==> q(e))
    && (forall d :: q(Envelope(Planning, Done, d, PlanPayload(names))))
    && (forall rejected, proposal, d :: RunSafety.Composes(names, accepted, proposal) ==> q(PrEnvelope(accepted, rejected, proposal, d)))
  }

  lemma StepAll(o: Oracle, sha: string -> string, w: World, n: nat, s: PlanStep, parentTag: string, q: Envelope -> bool, inv: Invariant)
    requires Keeps(o, q, inv)
    requires inv(w.log, w.publishes) && CoversSteps(q)
    ensures var w1 := RunOneStep(o, sha, w, n, s, parentTag).0; inv(w1.log, w1.publishes)
  {
    hide Publish;
    hide VerifyDraft;
    var (w1, r1) := Publish(o, w, Begin(Draft(n)));
    var w2 := Ask(w1, Llm(n, false));
    match o.draft(n) {
      case DraftDegraded(salvaged) =>
        if salvaged.Some? {
          DraftAll(o, sha, w2, n, s, parentTag, salvaged.value, true, q, inv);
        }
      case Drafted(d) => DraftAll(o, sha, w2, n, s, parentTag, d, false, q, inv);
      case _ =>
    }
  }

  lemma VerifyAll(o: Oracle, sha: string -> string, n: nat, second: bool, d: Candidate, parentTag: string, q: Envelope -> bool, inv: Invariant)
    requires Keeps(o, q, inv)
    requires CoversSteps(q)
    ensures forall w: World {:trigger VerifyDiff(o, sha, w, n, second, d, parentTag)} ::
      inv(w.log, w.publishes) ==>
        var w1 := VerifyDiff(o, sha, w, n, second, d, parentTag).0; inv(w1.log, w1.publishes)
  {
    hide Publish;
  }

  lemma RedraftAll(o: Oracle, sha: string -> string, w: World, n: nat, s: PlanStep, parentTag: string,
                   first: Candidate, firstRun: SandboxRun, degraded: bool, q: Envelope -> bool, inv: Invariant)
    requires Keeps(o, q, inv)
    requires inv(w.log, w.publishes) && CoversSteps(q)
    ensures var w1 := RedraftOnce(o, sha, w, n, s, parentTag, first, firstRun, degraded).0; inv(w1.log, w1.publishes)
  {
    if o.redraft(n).Drafted? {
      VerifyAll(o, sha, n, true, o.redraft(n).diff, parentTag, q, inv);
    }
    hide Publish;
    hide VerifyDiff;
  }

  lemma DraftAll(o: Oracle, sha: string -> string, w: World, n: nat, s: PlanStep, parentTag: string,
                 d: Candidate, degraded: bool, q: Envelope -> bool, inv: Invariant)
    requires Keeps(o, q, inv)
    requires inv(w.log, w.publishes) && CoversSteps(q)
    ensures var w1 := VerifyDraft(o, sha, w, n, s, parentTag, d, degraded).0; inv(w1.log, w1.publishes)
  {
    VerifyAll(o, sha, n, false, d, parentTag, q, inv);
    hide Publish;
    hide VerifyDiff;
    hide RedraftOnce;
    var (w1, r1) := Publish(o, w, DraftEnvelope(sha, Draft(n), s, d, degraded));
    var (w2, v) := VerifyDiff(o, sha, w1, n, false, d, parentTag);
    if r1.Quiet? && v.Verified? && v.run.Some? {
      RedraftAll(o, sha, w2, n, s, parentTag, d, v.run.value, degraded, q, inv);
    }
  }

  function LoopWorld(loop: LoopResult): World { if loop.LoopCrashed? then loop.w else loop.p.w }

  lemma {:induction false} LoopAll(o: Oracle, sha: string -> string, steps: seq<PlanStep>, i: nat, p: Progress,
                                   parentTag: string, q: Envelope -> bool, inv: Invariant)
    requires Keeps(o, q, inv)
    requires i <= |steps| && inv(p.w.log, p.w.publishes) && CoversSteps(q)
    ensures var w1 := LoopWorld(StepLoop(o, sha, steps, i, p, parentTag)); inv(w1.log, w1.publishes)
    decreases |steps| - i
  {
    hide Publish;
    hide RunOneStep;
    if i < |steps| && !o.overBudget(i) {
      var (w, out) := RunOneStep(o, sha, p.w, i, steps[i], parentTag);
      StepAll(o, sha, p.w, i, steps[i], parentTag, q, inv);
      var next := Record(o, p, i, steps[i], w, out);
      if next.LoopDone? {
        LoopAll(o, sha, steps, i + 1, next.p, parentTag, q, inv);
      }
    }
  }

  lemma LedgerAll(o: Oracle, t: Tail, k: nat, names: seq<string>, accepted: seq<AcceptedStep>, q: Envelope -> bool, inv: Invariant)
    requires Keeps(o, q, inv)
    requires CoversPhases(q, names, accepted) && inv(t.w.log, t.w.publishes)
    ensures var w1 := DoLedger(o, t, k).w; inv(w1.log, w1.publishes)
  {
    hide Publish;
  }

  lemma PrAll(o: Oracle, names: seq<string>, accepted: seq<AcceptedStep>, rejected: seq<RejectedStep>, t: Tail, k: nat,
              q: Envelope -> bool, inv: Invariant)
    requires Keeps(o, q, inv)
    requires CoversPhases(q, names, accepted) && inv(t.w.log, t.w.publishes) && RunSafety.Composes(names, accepted, t.proposal)
    ensures var w1 := DoPr(o, names, accepted, rejected, t, k).w; inv(w1.log, w1.publishes)
  {
    hide Publish;
    hide PrEnvelope;
  }

  lemma FinishAll(o: Oracle, names: seq<string>, p: Progress, q: Envelope -> bool, inv: Invariant)
    requires Keeps(o, q, inv)
    requires CoversPhases(q, names, p.accepted) && inv(p.w.log, p.w.publishes)
    ensures var w1 := Finish(o, names, p).w; inv(w1.log, w1.publishes)
  {
    hide Publish;
    hide DoLedger;
    hide DoPr;
    hide RunSafety.Composes;
    RunSafety.ComposesNone(names, p.accepted);
    var t0 := Tail(p.w, p.degraded, None, Quiet);
    LedgerAll(o, t0, 0, names, p.accepted, q, inv);
    RunSafety.LedgerKeeps(o, t0, 0);
    var t1 := DoLedger(o, t0, 0);
    PrAll(o, names, p.accepted, p.rejected, t1, 0, q, inv);
    RunSafety.PrKeeps(o, names, p.accepted, p.rejected, t1, 0);
    var t2 := if t1.r.Raised? then t1 else DoPr(o, names, p.accepted, p.rejected, t1, 0);
    var current := if t1.r.Raised? then StepId.Ledger else StepId.Pr;
    assert q(FailedEnvelope(current)) && q(Envelope(current, Failed, true, Reason("contract-missing")));
    if t2.r.Raised? && !t2.r.missing {
      var t3 := Tail(PublishIgnored(o, t2.w, FailedEnvelope(current)), true, t2.proposal, Quiet);
      LedgerAll(o, t3, 1, names, p.accepted, q, inv);
      RunSafety.LedgerKeeps(o, t3, 1);
      PrAll(o, names, p.accepted, p.rejected, DoLedger(o, t3, 1), 1, q, inv);
    }
  }

  lemma PhaseAll(o: Oracle, w: World, degraded: bool, id: StepId, reply: PhaseReply, lost: Status,
                 names: seq<string>, accepted: seq<AcceptedStep>, q: Envelope -> bool, inv: Invariant)
    requires Keeps(o, q, inv)
    requires CoversPhases(q, names, accepted) && inv(w.log, w.publishes) && id != Planning && !OfStep(id)
    ensures var w1 := AskPhase(o, w, degraded, id, reply, lost).0.w; inv(w1.log, w1.publishes)
  {
    hide Publish;
  }

  lemma OtherPhaseAll(o: Oracle, w: World, degraded: bool, valid: bool, steps: seq<PlanStep>,
                      accepted: seq<AcceptedStep>, q: Envelope -> bool, inv: Invariant)
    requires Keeps(o, q, inv)
    requires CoversPhases(q, StepNames(steps), accepted) && inv(w.log, w.publishes)
    ensures var w1 := OpenTicket(o, w, valid).w; inv(w1.log, w1.publishes)
    ensures var w1 := PackContext(o, w, degraded).w; inv(w1.log, w1.publishes)
    ensures var w1 := MakePlan(o, w, degraded, steps).w; inv(w1.log, w1.publishes)
  {
    hide Publish;
  }

  lemma PrepareAll(o: Oracle, title: string, cap: int, accepted: seq<AcceptedStep>, q: Envelope -> bool, inv: Invariant)
    requires Keeps(o, q, inv)
    requires CoversPhases(q, StepNames(PlanSteps(o, title, cap)), accepted) && inv([], 0)
    ensures var pre := Prepare(o, true, title, cap); pre.Ready? ==> inv(pre.w.log, pre.w.publishes)
  {
    hide OpenTicket;
    hide AskPhase;
    hide PackContext;
    hide MakePlan;
    hide CoversPhases;
    var steps := PlanSteps(o, title, cap);
    var names := StepNames(steps);
    OtherPhaseAll(o, Fresh, false, true, steps, accepted, q, inv);
    var f0 := OpenTicket(o, Fresh, true);
    if f0.Go? {
      PhaseAll(o, f0.w, f0.degraded, StepId.Grounding, o.grounding, Done, names, accepted, q, inv);
      var f1 := AskPhase(o, f0.w, f0.degraded, StepId.Grounding, o.grounding, Done).0;
      if f1.Go? {
        PhaseAll(o, f1.w, f1.degraded, StepId.Baseline, o.baseline, Failed, names, accepted, q, inv);
        var f2 := AskPhase(o, f1.w, f1.degraded, StepId.Baseline, o.baseline, Failed).0;
        if f2.Go? {
          OtherPhaseAll(o, f2.w, f2.degraded, true, steps, accepted, q, inv);
          var f3 := PackContext(o, f2.w, f2.degraded);
          if f3.Go? {
            OtherPhaseAll(o, f3.w, f3.degraded, true, steps, accepted, q, inv);
          }
        }
      }
    }
  }

  /** What publishing keeps, and what holds of the empty stream, holds of the stream of every
      returned run. */
  lemma StreamInvariant(o: Oracle, sha: string -> string, title: string, cap: int, q: Envelope -> bool, inv: Invariant)
    requires Keeps(o, q, inv) && inv([], 0) && RunTicket(o, sha, true, title, cap).Returned?
    requires CoversSteps(q)
    requires CoversPhases(q, StepNames(PlanSteps(o, title, cap)), RunTicket(o, sha, true, title, cap).result.accepted)
    ensures var w1 := RunTicket(o, sha, true, title, cap).w; inv(w1.log, w1.publishes)
  {
    hide Prepare;
    hide Finish;
    hide Keeps;
    hide CoversSteps;
    hide CoversPhases;
    var accepted := RunTicket(o, sha, true, title, cap).result.accepted;
    var pre := Prepare(o, true, title, cap);
    RunSafety.PrepareInvalid(o, title, cap);
    PrepareAll(o, title, cap, accepted, q, inv);
    var steps := PlanSteps(o, title, cap);
    var p0 := Progress(pre.w, pre.degraded, [], []);
    LoopAll(o, sha, steps, 0, p0, pre.parentTag, q, inv);
    var loop := StepLoop(o, sha, steps, 0, p0, pre.parentTag);
    RunSafety.FinishKeeps(o, StepNames(steps), loop.p);
    FinishAll(o, StepNames(steps), loop.p, q, inv);
  }
}
