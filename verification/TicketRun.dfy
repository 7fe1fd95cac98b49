/** The run as the source executes it: one object whose fields are updated step by step,
    every method proved to compute the run function of module Orchestrator. */
module TicketRuns {
  import opened Sequences
  import opened Gate
  import opened StepIds
  import opened Orchestrator
  import Compose

  class TicketRun {
    const o: Oracle
    const sha: string -> string
    var log: seq<Envelope>
    var publishes: nat
    var calls: seq<Call>
    var degraded: bool
    var accepted: seq<AcceptedStep>
    var rejected: seq<RejectedStep>
    var proposal: Option<Compose.Proposal>

    constructor (o: Oracle, sha: string -> string)
      ensures this.o == o && this.sha == sha
      ensures W() == Fresh && !degraded && accepted == [] && rejected == [] && proposal == None
    {
      this.o, this.sha := o, sha;
      log, publishes, calls := [], 0, [];
      degraded, accepted, rejected, proposal := false, [], [], None;
    }

    ghost function W(): World
      reads this
    {
      World(log, publishes, calls)
    }

    ghost function P(): Progress
      reads this
    {
      Progress(W(), degraded, accepted, rejected)
    }

    method Publish(e: Envelope) returns (r: Raise)
      modifies this`log, this`publishes
      ensures (W(), r) == Orchestrator.Publish(o, old(W()), e)
    {
      var reply := o.publish(publishes);
      publishes := publishes + 1;
      match reply
      case Sent =>
        log := log + [e];
        r := Quiet;
      case Dropped(missing) =>
        r := Raised(missing);
      case SentThenRaised(missing) =>
        log := log + [e];
        r := Raised(missing);
    }

    method Call(c: Call)
      modifies this`calls
      ensures W() == Ask(old(W()), c)
    {
      calls := calls + [c];
    }

    method VerifyDiff(n: nat, second: bool, d: Candidate, parentTag: string) returns (v: VerifyOutcome)
      modifies this`log, this`publishes, this`calls
      ensures (W(), v) == Orchestrator.VerifyDiff(o, sha, old(W()), n, second, d, parentTag)
    {
      var id := VerifyId(n, second);
      var r := Publish(Begin(id));
      if r.Raised? {
        return VerifyThrew(r.missing);
      }
      var reply := o.branch(n, second);
      Call(Branch(n, d, parentTag, reply));
      if reply.run.None? {
        r := Publish(DegradedVerify(id, d));
        if r.Raised? {
          return VerifyThrew(r.missing);
        }
        return Verified(false, "unknown", None);
      }
      var run := reply.run.value;
      var verdict := IsMergeable(sha, d, run);
      r := Publish(VerdictEnvelope(sha, id, d, run));
      if r.Raised? {
        return VerifyThrew(r.missing);
      }
      return Verified(verdict.Green?, run.branchTag, Some(run));
    }

    method RedraftOnce(n: nat, s: PlanStep, parentTag: string, first: Candidate, firstRun: SandboxRun, stepDegraded: bool)
      returns (out: StepOutcome)
      modifies this`log, this`publishes, this`calls
      ensures (W(), out) ==
        Orchestrator.RedraftOnce(o, sha, old(W()), n, s, parentTag, first, firstRun, stepDegraded)
    {
      Call(Rollback(n, firstRun.branchTag, parentTag, o.rollbackReaches(n, false)));
      var r := Publish(Begin(Redraft(n)));
      if r.Raised? {
        return StepThrew(r.missing);
      }
      var reply := o.redraft(n);
      if reply.RenderFails? {
        return StepThrew(reply.missing);
      }
      Call(Llm(n, true));
      if reply.DraftDegraded? || reply.Unparsed? {
        r := Publish(if reply.Unparsed? then UnparsedDraft(Redraft(n)) else LostDraft(Redraft(n), s));
        if r.Raised? {
          return StepThrew(r.missing);
        }
        return StepDone(false, Some(first), Some(firstRun), true);
      }
      r := Publish(DraftEnvelope(sha, Redraft(n), s, reply.diff, stepDegraded));
      if r.Raised? {
        return StepThrew(r.missing);
      }
      var v := VerifyDiff(n, true, reply.diff, parentTag);
      if v.VerifyThrew? {
        return StepThrew(v.missing);
      }
      if v.ok && v.run.Some? {
        return StepDone(true, Some(reply.diff), v.run, stepDegraded);
      }
      Call(Rollback(n, v.branchTag, parentTag, o.rollbackReaches(n, true)));
      return StepDone(false, Some(reply.diff), v.run, stepDegraded || v.run.None?);
    }

    method RunOneStep(n: nat, s: PlanStep, parentTag: string) returns (out: StepOutcome)
      modifies this`log, this`publishes, this`calls
      ensures (W(), out) == Orchestrator.RunOneStep(o, sha, old(W()), n, s, parentTag)
    {
      var stepDegraded := false;
      var r := Publish(Begin(Draft(n)));
      if r.Raised? {
        return StepThrew(r.missing);
      }
      var reply := o.draft(n);
      if reply.RenderFails? {
        return StepThrew(reply.missing);
      }
      Call(Llm(n, false));
      var d: Candidate;
      if reply.DraftDegraded? {
        stepDegraded := true;
        if reply.salvaged.None? {
          r := Publish(LostDraft(Draft(n), s));
          if r.Raised? {
            return StepThrew(r.missing);
          }
          return StepDone(false, None, None, true);
        }
        d := reply.salvaged.value;
      } else if reply.Unparsed? {
        r := Publish(UnparsedDraft(Draft(n)));
        if r.Raised? {
          return StepThrew(r.missing);
        }
        return StepDone(false, None, None, stepDegraded);
      } else {
        d := reply.diff;
      }
      r := Publish(DraftEnvelope(sha, Draft(n), s, d, stepDegraded));
      if r.Raised? {
        return StepThrew(r.missing);
      }
      var v := VerifyDiff(n, false, d, parentTag);
      if v.VerifyThrew? {
        return StepThrew(v.missing);
      }
      if v.run.Some? && v.ok {
        return StepDone(true, Some(d), v.run, stepDegraded);
      }
      if v.run.None? {
        return StepDone(false, Some(d), None, true);
      }
      out := RedraftOnce(n, s, parentTag, d, v.run.value, stepDegraded);
    }

    /** What one loop iteration makes of a step's outcome. */
    method RecordOutcome(n: nat, s: PlanStep, out: StepOutcome) returns (crashed: bool)
      modifies this`log, this`publishes, this`degraded, this`accepted, this`rejected
      ensures Orchestrator.Record(o, old(P()), n, s, old(W()), out) ==
        if crashed then LoopCrashed(W()) else LoopDone(P())
    {
      if out.StepThrew? {
        if out.missing {
          var _ := Publish(Envelope(Draft(n), Failed, true, Reason("contract-missing")));
          var _ := Publish(Envelope(Draft(n), Failed, true, Reason("contract-missing")));
          return true;
        }
        degraded := true;
        rejected := rejected + [RejectedStep(s, None, None, Threw)];
        var _ := Publish(FailedEnvelope(Draft(n)));
      } else {
        if out.degraded {
          degraded := true;
        }
        if out.accept && out.diff.Some? && out.run.Some? {
          accepted := accepted + [AcceptedStep(s, out.diff.value, out.run.value)];
        } else {
          rejected := rejected + [RejectedStep(s, out.diff, out.run, WhyRejected(out.run, out.degraded))];
        }
      }
      return false;
    }

    /** The budget check tripped: every remaining step is rejected. */
    method StopForBudget(steps: seq<PlanStep>, i: nat)
      requires i <= |steps|
      modifies this`log, this`publishes, this`degraded, this`rejected
      ensures P() == Progress(PublishIgnored(o, old(W()), Envelope(Draft(i), Failed, true, Reason("budget-exhausted"))),
                              true, accepted, old(rejected) + Map(steps[i..], BudgetReject))
    {
      degraded := true;
      rejected := rejected + Map(steps[i..], BudgetReject);
      var _ := Publish(Envelope(Draft(i), Failed, true, Reason("budget-exhausted")));
    }

    /** The loop over the plan; a missing module ends the run with an error. */
    method RunSteps(steps: seq<PlanStep>, parentTag: string) returns (crashed: bool)
      modifies this`log, this`publishes, this`calls, this`degraded, this`accepted, this`rejected
      ensures StepLoop(o, sha, steps, 0, old(P()), parentTag) ==
        if crashed then LoopCrashed(W()) else LoopDone(P())
    {
      var i := 0;
      while i < |steps|
        invariant i <= |steps|
        invariant StepLoop(o, sha, steps, 0, old(P()), parentTag) == StepLoop(o, sha, steps, i, P(), parentTag)
      {
        if o.overBudget(i) {
          StopForBudget(steps, i);
          return false;
        }
        ghost var before := P();
        var out := RunOneStep(i, steps[i], parentTag);
        RecordIgnoresWorld(before, P(), i, steps[i], W(), out);
        crashed := RecordOutcome(i, steps[i], out);
        if crashed {
          return;
        }
        i := i + 1;
      }
      return false;
    }

    /** Recording a step only looks at the flag and the two lists of the progress so far. */
    lemma RecordIgnoresWorld(p: Progress, q: Progress, n: nat, s: PlanStep, w: World, out: StepOutcome)
      requires p.degraded == q.degraded && p.accepted == q.accepted && p.rejected == q.rejected
      ensures Orchestrator.Record(o, p, n, s, w, out) == Orchestrator.Record(o, q, n, s, w, out)
    {
    }

    ghost function T(r: Raise): Tail
      reads this
    {
      Tail(W(), degraded, proposal, r)
    }

    method DoLedger(k: nat) returns (r: Raise)
      modifies this`log, this`publishes, this`degraded
      ensures T(r) == Orchestrator.DoLedger(o, old(T(Quiet)), k)
    {
      r := Publish(Begin(StepId.Ledger));
      if r.Raised? {
        return;
      }
      var reply := o.ledger(k);
      if reply.Malformed? {
        r := Raised(reply.missing);
      } else if reply.Degraded? {
        degraded := true;
        r := Publish(Envelope(StepId.Ledger, Failed, true, NoPayload));
      } else {
        r := Publish(Envelope(StepId.Ledger, Done, false, NoPayload));
      }
      if r.Raised? {
        if r.missing {
          var _ := Publish(Envelope(StepId.Ledger, Failed, true, Reason("contract-missing")));
          return;
        }
        degraded := true;
        r := Publish(FailedEnvelope(StepId.Ledger));
      }
    }

    method DoPr(ids: seq<string>, k: nat) returns (r: Raise)
      modifies this`log, this`publishes, this`degraded, this`proposal
      ensures T(r) == Orchestrator.DoPr(o, ids, accepted, rejected, old(T(Quiet)), k)
    {
      r := Publish(Begin(StepId.Pr));
      if r.Raised? {
        return;
      }
      var reply := o.pr(k);
      if reply.ComposeRaises? {
        r := Raised(reply.missing);
      } else {
        var composed := Compose.ComposePr(ids, accepted);
        if reply.PrDegraded? {
          degraded := true;
          proposal := Some(composed.(url := None));
        } else {
          proposal := Some(composed.(url := reply.url));
        }
        r := Publish(Envelope(StepId.Pr, Done, degraded,
          PrPayload(proposal.value.unifiedDiff, |accepted|, |rejected|)));
      }
      if r.Raised? {
        if r.missing {
          var _ := Publish(Envelope(StepId.Pr, Failed, true, Reason("contract-missing")));
          return;
        }
        degraded := true;
        if proposal.Some? {
          proposal := Some(proposal.value.(url := None));
        }
        r := Publish(Envelope(StepId.Pr, Done, true,
          PrPayload(if proposal.Some? then proposal.value.unifiedDiff else "", |accepted|, |rejected|)));
      }
    }

    /** The outer `catch`: report, then try ledger and PR once more. */
    method LastResort(ids: seq<string>, r0: Raise, current: StepId) returns (threw: bool)
      requires r0.Raised?
      modifies this`log, this`publishes, this`degraded, this`proposal
      ensures Orchestrator.LastResort(o, ids, accepted, rejected, old(T(r0)), current) ==
        if threw then RunThrew(W()) else Returned(W(), RunResult(accepted, rejected, proposal, degraded))
    {
      if r0.missing {
        var _ := Publish(Envelope(current, Failed, true, Reason("contract-missing")));
        return true;
      }
      degraded := true;
      var _ := Publish(FailedEnvelope(current));
      var r := DoLedger(1);
      if r.Quiet? {
        r := DoPr(ids, 1);
      }
      degraded := true;
      return false;
    }

    /** Ledger and PR: returns whether the run ends with an error. */
    method FinishRun(ids: seq<string>) returns (threw: bool)
      requires proposal == None
      modifies this`log, this`publishes, this`degraded, this`proposal
      ensures Finish(o, ids, old(P())) ==
        if threw then RunThrew(W()) else Returned(W(), RunResult(accepted, rejected, proposal, degraded))
    {
      var r := DoLedger(0);
      if r.Raised? {
        threw := LastResort(ids, r, StepId.Ledger);
        return;
      }
      r := DoPr(ids, 0);
      if r.Raised? {
        threw := LastResort(ids, r, StepId.Pr);
        return;
      }
      return false;
    }

    method SoftPublish(e: Envelope) returns (crash: bool)
      modifies this`log, this`publishes
      ensures Orchestrator.SoftPublish(o, old(W()), degraded, e) == if crash then Crash(W()) else Go(W(), degraded)
    {
      var r := Publish(e);
      crash := r.Raised? && r.missing;
    }

    method Recover(r: Raise, id: StepId) returns (crash: bool)
      requires r.Raised?
      modifies this`log, this`publishes, this`degraded
      ensures Orchestrator.Recover(o, old(W()), r, id) == if crash then Crash(W()) else Go(W(), degraded)
    {
      if r.missing {
        var _ := Publish(Envelope(id, Failed, true, Reason("contract-missing")));
        return true;
      }
      degraded := true;
      var _ := Publish(FailedEnvelope(id));
      return false;
    }

    method AskPhase(id: StepId, reply: PhaseReply, lost: Status) returns (crash: bool, ok: bool)
      modifies this`log, this`publishes, this`degraded
      ensures Orchestrator.AskPhase(o, old(W()), old(degraded), id, reply, lost) ==
        (if crash then Crash(W()) else Go(W(), degraded), ok)
    {
      crash := SoftPublish(Begin(id));
      if crash {
        return true, false;
      }
      var r: Raise;
      if reply.Malformed? {
        r := Raised(reply.missing);
      } else if reply.Degraded? {
        degraded := true;
        r := Publish(Envelope(id, lost, true, NoPayload));
      } else {
        r := Publish(Envelope(id, Done, false, NoPayload));
      }
      if r.Raised? {
        crash := Recover(r, id);
        return crash, false;
      }
      return false, reply.Good?;
    }

    method Pack() returns (crash: bool)
      modifies this`log, this`publishes
      ensures Orchestrator.PackContext(o, old(W()), degraded) == if crash then Crash(W()) else Go(W(), degraded)
    {
      crash := SoftPublish(Begin(ContextPack));
      if crash {
        return;
      }
      var r := o.pack;
      if r.Quiet? {
        r := Publish(Envelope(ContextPack, Done, false, NoPayload));
      }
      if r.Raised? {
        if r.missing {
          var _ := Publish(Envelope(ContextPack, Failed, true, Reason("contract-missing")));
        }
        return true;
      }
      return false;
    }

    method MakePlan(title: string, cap: int) returns (crash: bool, steps: seq<PlanStep>)
      modifies this`log, this`publishes, this`degraded
      ensures steps == PlanSteps(o, title, cap)
      ensures Orchestrator.MakePlan(o, old(W()), old(degraded), steps) == if crash then Crash(W()) else Go(W(), degraded)
    {
      steps := PlanSteps(o, title, cap);
      crash := SoftPublish(Begin(Planning));
      if crash {
        return;
      }
      if !o.planner.Planned? {
        if o.planner.NoPlan? && o.planner.missing {
          var _ := Publish(Envelope(Planning, Failed, true, Reason("contract-missing")));
          return true, steps;
        }
        degraded := true;
      }
      crash := SoftPublish(Envelope(Planning, Done, degraded, PlanPayload(StepNames(steps))));
    }

    /** Everything before the step loop, for a ticket whose fields are filled in. */
    method PrepareValid(title: string, cap: int) returns (crash: bool, steps: seq<PlanStep>, parentTag: string)
      requires W() == Fresh && !degraded
      modifies this`log, this`publishes, this`degraded
      ensures steps == PlanSteps(o, title, cap)
      ensures Prepare(o, true, title, cap) == if crash then Stopped(RunThrew(W())) else Ready(W(), degraded, parentTag)
    {
      steps, parentTag := PlanSteps(o, title, cap), NO_BASELINE;
      crash := SoftPublish(Begin(StepId.Intake));
      if crash {
        return;
      }
      crash := SoftPublish(Envelope(StepId.Intake, Done, false, NoPayload));
      if crash {
        return;
      }
      var ok: bool;
      crash, ok := AskPhase(StepId.Grounding, o.grounding, Done);
      if crash {
        return;
      }
      crash, ok := AskPhase(StepId.Baseline, o.baseline, Failed);
      if crash {
        return;
      }
      parentTag := if ok then o.baselineTag else NO_BASELINE;
      crash := Pack();
      if crash {
        return;
      }
      crash, steps := MakePlan(title, cap);
    }

    /** The whole run: the object's final fields are the outcome of the run function. */
    method Run(valid: bool, title: string, cap: int) returns (threw: bool)
      requires W() == Fresh && !degraded && accepted == [] && rejected == [] && proposal == None
      modifies this
      ensures RunTicket(o, sha, valid, title, cap) ==
        if threw then RunThrew(W()) else Returned(W(), RunResult(accepted, rejected, proposal, degraded))
    {
      if !valid {
        threw := SoftPublish(Begin(StepId.Intake));
        if !threw {
          degraded := true;
          var _ := Publish(Envelope(StepId.Intake, Failed, true, Reason("invalid-ticket")));
        }
        return;
      }
      var crash, steps, parentTag := PrepareValid(title, cap);
      if crash {
        return true;
      }
      crash := RunSteps(steps, parentTag);
      if crash {
        return true;
      }
      threw := FinishRun(StepNames(steps));
    }
  }
}
