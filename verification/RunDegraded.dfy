/** Degradation is never invented and, when the stream delivers, never lost. */
module RunDegraded {
  import opened Sequences
  import opened Gate
  import opened StepIds
  import opened Orchestrator
  import opened RunSafety

  ghost predicate AnyDegraded(log: seq<Envelope>) { exists e :: e in log && e.degraded }

  lemma PublishDegraded(o: Oracle)
    ensures forall w, e {:trigger Publish(o, w, e)} ::
      AnyDegraded(Publish(o, w, e).0.log) ==> AnyDegraded(w.log) || e.degraded
  {
  }

  // ------------------------------------------------------------------- never invented

  lemma VerifyFlags(o: Oracle, sha: string -> string, w: World, n: nat, second: bool, d: Candidate, parentTag: string)
    ensures var (w1, v) := VerifyDiff(o, sha, w, n, second, d, parentTag);
      AnyDegraded(w1.log) ==> AnyDegraded(w.log) || v.VerifyThrew? || v.run.None?
  {
    PublishDegraded(o);
    hide Publish;
    hide AnyDegraded;
  }

  lemma RedraftFlags(o: Oracle, sha: string -> string, w: World, n: nat, s: PlanStep, parentTag: string,
                     first: Candidate, firstRun: SandboxRun, degraded: bool)
    ensures var (w1, out) := RedraftOnce(o, sha, w, n, s, parentTag, first, firstRun, degraded);
      AnyDegraded(w1.log) ==> AnyDegraded(w.log) || out.StepThrew? || out.degraded
  {
    PublishDegraded(o);
    hide Publish;
    hide AnyDegraded;
    hide VerifyDiff;
    var w1 := Ask(w, Rollback(n, firstRun.branchTag, parentTag, o.rollbackReaches(n, false)));
    var (w2, r2) := Publish(o, w1, Begin(Redraft(n)));
    var reply := o.redraft(n);
    if r2.Quiet? && reply.Drafted? {
      var w4 := Publish(o, Ask(w2, Llm(n, true)), DraftEnvelope(sha, Redraft(n), s, reply.diff, degraded)).0;
      VerifyFlags(o, sha, w4, n, true, reply.diff, parentTag);
    }
  }

  lemma DraftFlags(o: Oracle, sha: string -> string, w: World, n: nat, s: PlanStep, parentTag: string,
                   d: Candidate, degraded: bool)
    ensures var (w1, out) := VerifyDraft(o, sha, w, n, s, parentTag, d, degraded);
      AnyDegraded(w1.log) ==> AnyDegraded(w.log) || out.StepThrew? || out.degraded
  {
    PublishDegraded(o);
    hide Publish;
    hide AnyDegraded;
    hide VerifyDiff;
    hide RedraftOnce;
    var (w1, r1) := Publish(o, w, DraftEnvelope(sha, Draft(n), s, d, degraded));
    if r1.Quiet? {
      VerifyFlags(o, sha, w1, n, false, d, parentTag);
      var (w2, v) := VerifyDiff(o, sha, w1, n, false, d, parentTag);
      if v.Verified? && v.run.Some? && !v.ok {
        RedraftFlags(o, sha, w2, n, s, parentTag, d, v.run.value, degraded);
        RedraftMonotone(o, sha, w2, n, s, parentTag, d, v.run.value, degraded);
        var (_, out) := RedraftOnce(o, sha, w2, n, s, parentTag, d, v.run.value, degraded);
        assert out.StepDone? || out.StepThrew?;
      }
    }
  }

  lemma RedraftMonotone(o: Oracle, sha: string -> string, w: World, n: nat, s: PlanStep, parentTag: string,
                        first: Candidate, firstRun: SandboxRun, degraded: bool)
    ensures var (_, out) := RedraftOnce(o, sha, w, n, s, parentTag, first, firstRun, degraded);
      out.StepDone? && degraded ==> out.degraded
  {
    hide Publish;
    hide VerifyDiff;
  }

  lemma StepFlags(o: Oracle, sha: string -> string, w: World, n: nat, s: PlanStep, parentTag: string)
    ensures var (w1, out) := RunOneStep(o, sha, w, n, s, parentTag);
      AnyDegraded(w1.log) ==> AnyDegraded(w.log) || out.StepThrew? || out.degraded
  {
    PublishDegraded(o);
    hide Publish;
    hide AnyDegraded;
    hide VerifyDraft;
    var (w1, r1) := Publish(o, w, Begin(Draft(n)));
    if r1.Quiet? && !o.draft(n).RenderFails? {
      var w2 := Ask(w1, Llm(n, false));
      match o.draft(n) {
        case DraftDegraded(salvaged) =>
          if salvaged.Some? {
            DraftFlags(o, sha, w2, n, s, parentTag, salvaged.value, true);
          }
        case Drafted(d) => DraftFlags(o, sha, w2, n, s, parentTag, d, false);
        case _ =>
      }
    }
  }

  ghost predicate FlagCovers(w: World, degraded: bool) { AnyDegraded(w.log) ==> degraded }

  lemma {:induction false} LoopFlags(o: Oracle, sha: string -> string, steps: seq<PlanStep>, i: nat, p: Progress, parentTag: string)
    requires i <= |steps| && FlagCovers(p.w, p.degraded)
    ensures var loop := StepLoop(o, sha, steps, i, p, parentTag); loop.LoopDone? ==> FlagCovers(loop.p.w, loop.p.degraded)
    decreases |steps| - i
  {
    PublishDegraded(o);
    hide Publish;
    hide AnyDegraded;
    hide RunOneStep;
    if i < |steps| && !o.overBudget(i) {
      var (w, out) := RunOneStep(o, sha, p.w, i, steps[i], parentTag);
      StepFlags(o, sha, p.w, i, steps[i], parentTag);
      var next := Record(o, p, i, steps[i], w, out);
      if next.LoopDone? {
        LoopFlags(o, sha, steps, i + 1, next.p, parentTag);
      }
    }
  }

  lemma LedgerFlags(o: Oracle, t: Tail, k: nat)
    requires FlagCovers(t.w, t.degraded)
    ensures var t1 := DoLedger(o, t, k); t1.r.Quiet? ==> FlagCovers(t1.w, t1.degraded)
  {
    PublishDegraded(o);
    hide Publish;
    hide AnyDegraded;
  }

  lemma PrFlags(o: Oracle, ids: seq<string>, accepted: seq<AcceptedStep>, rejected: seq<RejectedStep>, t: Tail, k: nat)
    requires FlagCovers(t.w, t.degraded)
    ensures var t1 := DoPr(o, ids, accepted, rejected, t, k); t1.r.Quiet? ==> FlagCovers(t1.w, t1.degraded)
  {
    PublishDegraded(o);
    hide Publish;
    hide AnyDegraded;
  }

  lemma FinishFlags(o: Oracle, ids: seq<string>, p: Progress)
    requires FlagCovers(p.w, p.degraded)
    ensures var out := Finish(o, ids, p); out.Returned? && AnyDegraded(out.w.log) ==> out.result.degraded
  {
    hide DoLedger;
    hide DoPr;
    hide AnyDegraded;
    hide Publish;
    var t0 := Tail(p.w, p.degraded, None, Quiet);
    LedgerFlags(o, t0, 0);
    var t1 := DoLedger(o, t0, 0);
    if t1.r.Quiet? {
      PrFlags(o, ids, p.accepted, p.rejected, t1, 0);
    }
  }

  lemma PhaseFlags(o: Oracle, w: World, degraded: bool, id: StepId, reply: PhaseReply, lost: Status)
    requires FlagCovers(w, degraded)
    ensures var f := AskPhase(o, w, degraded, id, reply, lost).0; f.Go? ==> FlagCovers(f.w, f.degraded)
  {
    PublishDegraded(o);
    hide Publish;
    hide AnyDegraded;
  }

  lemma OtherPhaseFlags(o: Oracle, w: World, degraded: bool, valid: bool, steps: seq<PlanStep>)
    requires FlagCovers(w, degraded)
    ensures !AnyDegraded(w.log) ==> var f := OpenTicket(o, w, valid); f.Go? ==> FlagCovers(f.w, f.degraded)
    ensures var f := PackContext(o, w, degraded); f.Go? ==> FlagCovers(f.w, f.degraded)
    ensures var f := MakePlan(o, w, degraded, steps); f.Go? ==> FlagCovers(f.w, f.degraded)
  {
    PublishDegraded(o);
    hide Publish;
    hide AnyDegraded;
  }

  lemma PrepareFlags(o: Oracle, valid: bool, title: string, cap: int)
    ensures var pre := Prepare(o, valid, title, cap);
      (pre.Ready? ==> FlagCovers(pre.w, pre.degraded)) &&
      (pre.Stopped? && pre.out.Returned? ==> pre.out.result.degraded)
  {
    hide OpenTicket;
    hide AskPhase;
    hide PackContext;
    hide MakePlan;
    var steps := PlanSteps(o, title, cap);
    OtherPhaseFlags(o, Fresh, false, valid, steps);
    var f0 := OpenTicket(o, Fresh, valid);
    if f0.Go? && valid {
      PhaseFlags(o, f0.w, f0.degraded, StepId.Grounding, o.grounding, Done);
      var f1 := AskPhase(o, f0.w, f0.degraded, StepId.Grounding, o.grounding, Done).0;
      if f1.Go? {
        PhaseFlags(o, f1.w, f1.degraded, StepId.Baseline, o.baseline, Failed);
        var f2 := AskPhase(o, f1.w, f1.degraded, StepId.Baseline, o.baseline, Failed).0;
        if f2.Go? {
          OtherPhaseFlags(o, f2.w, f2.degraded, valid, steps);
          var f3 := PackContext(o, f2.w, f2.degraded);
          if f3.Go? {
            OtherPhaseFlags(o, f3.w, f3.degraded, valid, steps);
          }
        }
      }
    }
  }

  /** In every run that returns, a degraded envelope on the stream means a degraded result. */
  lemma NeverInvented(o: Oracle, sha: string -> string, valid: bool, title: string, cap: int)
    ensures var out := RunTicket(o, sha, valid, title, cap);
      out.Returned? && AnyDegraded(out.w.log) ==> out.result.degraded
  {
    hide Prepare;
    hide Finish;
    hide AnyDegraded;
    var pre := Prepare(o, valid, title, cap);
    PrepareFlags(o, valid, title, cap);
    if pre.Ready? {
      var steps := PlanSteps(o, title, cap);
      var p0 := Progress(pre.w, pre.degraded, [], []);
      LoopFlags(o, sha, steps, 0, p0, pre.parentTag);
      var loop := StepLoop(o, sha, steps, 0, p0, pre.parentTag);
      if loop.LoopDone? {
        FinishFlags(o, StepNames(steps), loop.p);
      }
    }
  }

  // ------------------------------------------------------------------- never lost

  lemma SentFacts(o: Oracle)
    requires AllSent(o)
    ensures forall w, e {:trigger Publish(o, w, e)} ::
      Publish(o, w, e).1 == Quiet && Publish(o, w, e).0.log == w.log + [e]
  {
  }

  /** Entries `at` and `at + 1` of the log report a phase: its start, and how it went. A phase that
      only lost quality ends with status `lost`. */
  ghost predicate PhaseTold(log: seq<Envelope>, at: nat, id: StepId, reply: PhaseReply, lost: Status) {
    && at + 1 < |log|
    && log[at] == Envelope(id, Started, false, NoPayload)
    && log[at + 1] == match reply
                      case Good => Envelope(id, Done, false, NoPayload)
                      case Degraded => Envelope(id, lost, true, NoPayload)
                      case Malformed(_) => Envelope(id, Failed, true, Reason("error"))
  }

  /** The last four entries of the log: the ledger phase, and the pull request with the diff of the
      proposal, how many steps were accepted and rejected, and the result's flag. */
  ghost predicate Closing(o: Oracle, log: seq<Envelope>, result: RunResult) {
    && |log| >= 4
    && PhaseTold(log, |log| - 4, StepId.Ledger, o.ledger(0), Failed)
    && log[|log| - 2] == Envelope(StepId.Pr, Started, false, NoPayload)
    && log[|log| - 1] == Envelope(StepId.Pr, Done, result.degraded,
         PrPayload(if result.proposal.Some? then result.proposal.value.unifiedDiff else "", |result.accepted|, |result.rejected|))
  }

  /** A run whose stream delivers ends with the PR envelope, which carries the flag. */
  lemma FinishSays(o: Oracle, ids: seq<string>, p: Progress)
    requires AllSent(o)
    ensures var out := Finish(o, ids, p);
      out.Returned? ==>
        && |out.w.log| == |p.w.log| + 4
        && p.w.log <= out.w.log
        && out.result.accepted == p.accepted && out.result.rejected == p.rejected
        && Closing(o, out.w.log, out.result)
  {
    SentFacts(o);
    hide Publish;
    hide AllSent;
    hide DoLedger;
    hide DoPr;
    var t0 := Tail(p.w, p.degraded, None, Quiet);
    LedgerSays(o, t0, 0);
    var t1 := DoLedger(o, t0, 0);
    PrSays(o, ids, p.accepted, p.rejected, t1, 0);
    var t2 := DoPr(o, ids, p.accepted, p.rejected, t1, 0);
  }

  lemma LedgerSays(o: Oracle, t: Tail, k: nat)
    requires AllSent(o)
    ensures var t1 := DoLedger(o, t, k);
      && (t1.r.Quiet? ==>
            |t1.w.log| == |t.w.log| + 2 && t.w.log <= t1.w.log && PhaseTold(t1.w.log, |t.w.log|, StepId.Ledger, o.ledger(k), Failed))
      && (t1.r.Raised? ==> t1.r.missing)
  {
    SentFacts(o);
    hide Publish;
    hide AllSent;
  }

  lemma PrSays(o: Oracle, ids: seq<string>, accepted: seq<AcceptedStep>, rejected: seq<RejectedStep>, t: Tail, k: nat)
    requires AllSent(o)
    ensures var t1 := DoPr(o, ids, accepted, rejected, t, k);
      && (t1.r.Quiet? ==>
            && |t1.w.log| == |t.w.log| + 2 && t.w.log <= t1.w.log
            && t1.w.log[|t.w.log|] == Begin(StepId.Pr)
            && t1.w.log[|t1.w.log| - 1] == PrEnvelope(accepted, rejected, t1.proposal, t1.degraded))
      && (t1.r.Raised? ==> t1.r.missing)
  {
    SentFacts(o);
    hide Publish;
    hide AllSent;
  }

  lemma InvalidSays(o: Oracle)
    requires AllSent(o)
    ensures var f := OpenTicket(o, Fresh, false); f.Go? && AnyDegraded(f.w.log)
  {
    SentFacts(o);
    hide Publish;
    var f := OpenTicket(o, Fresh, false);
    assert f.w.log[1].degraded;
  }

  /** Some step failures raise the flag without a degraded envelope of their own; when the
      stream delivers, the closing PR envelope still tells. Together with `NeverInvented`:
      the result is degraded if and only if a degraded envelope was published. */
  lemma DegradedExactly(o: Oracle, sha: string -> string, valid: bool, title: string, cap: int)
    requires AllSent(o)
    ensures var out := RunTicket(o, sha, valid, title, cap);
      out.Returned? ==> (out.result.degraded <==> AnyDegraded(out.w.log))
  {
    NeverInvented(o, sha, valid, title, cap);
    var out := RunTicket(o, sha, valid, title, cap);
    if out.Returned? && out.result.degraded {
      hide Finish;
      hide AskPhase;
      hide PackContext;
      hide MakePlan;
      hide StepLoop;
      hide OpenTicket;
      hide AllSent;
      var pre := Prepare(o, valid, title, cap);
      if pre.Ready? {
        var steps := PlanSteps(o, title, cap);
        var loop := StepLoop(o, sha, steps, 0, Progress(pre.w, pre.degraded, [], []), pre.parentTag);
        FinishSays(o, StepNames(steps), loop.p);
        assert out.w.log[|out.w.log| - 1].degraded;
      } else {
        InvalidSays(o);
      }
    }
  }

  /** The delivery hypothesis is needed: with a stream that drops everything, an invalid
      ticket ends in a degraded result of which the stream says nothing. */
  lemma LostWhenDropped(o: Oracle, sha: string -> string, title: string, cap: int)
    requires forall k :: o.publish(k) == Dropped(false)
    ensures var out := RunTicket(o, sha, false, title, cap);
      out.Returned? && out.result.degraded && out.w.log == []
  {
    hide AskPhase;
    hide PackContext;
    hide MakePlan;
    hide StepLoop;
    hide Finish;
    assert OpenTicket(o, Fresh, false).Go?;
  }
}
