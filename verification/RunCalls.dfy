/** The calls of a run, cut into the segments of its plan steps. */
module RunCalls {
  import opened Sequences
  import opened Gate
  import opened Orchestrator
  import opened RunSafety
  import RunInvariant

  /** `segs[n]` are the calls of step `n`, and `outs[n]` is what came of it. */
  ghost predicate Segmented(o: Oracle, sha: string -> string, parentTag: string, segs: seq<seq<Call>>, outs: seq<StepOutcome>) {
    |segs| == |outs| && forall n :: 0 <= n < |segs| ==> CallShape(o, sha, n, parentTag, segs[n], outs[n])
  }

  /** The accepted list that the outcomes of the first steps make. */
  function Taken(steps: seq<PlanStep>, outs: seq<StepOutcome>): seq<AcceptedStep>
    requires |outs| <= |steps|
  {
    if outs == [] then []
    else
      var n := |outs| - 1;
      Taken(steps, outs[..n]) +
        (if Accepts(outs[n]) then [AcceptedStep(steps[n], outs[n].diff.value, outs[n].run.value)] else [])
  }

  lemma {:induction false} TakenMember(steps: seq<PlanStep>, outs: seq<StepOutcome>, e: AcceptedStep) returns (n: nat)
    requires |outs| <= |steps| && e in Taken(steps, outs)
    ensures n < |outs| && Accepts(outs[n]) && e == AcceptedStep(steps[n], outs[n].diff.value, outs[n].run.value)
  {
    n := |outs| - 1;
    if e in Taken(steps, outs[..n]) {
      n := TakenMember(steps, outs[..n], e);
    }
  }

  lemma {:induction false} TakenHolds(steps: seq<PlanStep>, outs: seq<StepOutcome>, n: nat)
    requires |outs| <= |steps| && n < |outs| && Accepts(outs[n])
    ensures AcceptedStep(steps[n], outs[n].diff.value, outs[n].run.value) in Taken(steps, outs)
    decreases |outs|
  {
    if n < |outs| - 1 {
      TakenHolds(steps, outs[..|outs| - 1], n);
    }
  }

  lemma SegmentedAdd(o: Oracle, sha: string -> string, parentTag: string, segs: seq<seq<Call>>, outs: seq<StepOutcome>,
                     calls: seq<Call>, out: StepOutcome)
    requires Segmented(o, sha, parentTag, segs, outs) && CallShape(o, sha, |segs|, parentTag, calls, out)
    ensures Segmented(o, sha, parentTag, segs + [calls], outs + [out])
  {
    hide CallShape;
  }

  lemma RecordTaken(o: Oracle, p: Progress, steps: seq<PlanStep>, n: nat, w: World, outs: seq<StepOutcome>, out: StepOutcome)
    requires n < |steps| && |outs| == n && p.accepted == Taken(steps, outs)
    ensures var next := Record(o, p, n, steps[n], w, out);
      && RunInvariant.LoopWorld(next).calls == w.calls
      && (next.LoopDone? ==> next.p.accepted == Taken(steps, outs + [out]))
  {
    PublishKeepsCalls(o);
    hide Publish;
    assert (outs + [out])[..n] == outs;
  }

  lemma {:induction false} LoopSegments(o: Oracle, sha: string -> string, steps: seq<PlanStep>, i: nat, p: Progress,
                                        parentTag: string, segs0: seq<seq<Call>>, outs0: seq<StepOutcome>)
    returns (segs: seq<seq<Call>>, outs: seq<StepOutcome>)
    requires i <= |steps| && |segs0| == i && Segmented(o, sha, parentTag, segs0, outs0)
    requires p.w.calls == Flatten(segs0) && p.accepted == Taken(steps, outs0)
    ensures Segmented(o, sha, parentTag, segs, outs) && |segs| <= |steps|
    ensures var loop := StepLoop(o, sha, steps, i, p, parentTag);
      && RunInvariant.LoopWorld(loop).calls == Flatten(segs)
      && (loop.LoopDone? ==> loop.p.accepted == Taken(steps, outs))
    decreases |steps| - i
  {
    hide RunOneStep;
    hide Record;
    hide Taken;
    hide CallShape;
    PublishKeepsCalls(o);
    segs, outs := segs0, outs0;
    if i < |steps| && !o.overBudget(i) {
      var (w, out) := RunOneStep(o, sha, p.w, i, steps[i], parentTag);
      var calls := StepCalls(o, sha, p.w, i, steps[i], parentTag);
      SegmentedAdd(o, sha, parentTag, segs0, outs0, calls, out);
      FlattenAppend(segs0, calls);
      RecordTaken(o, p, steps, i, w, outs0, out);
      segs, outs := segs0 + [calls], outs0 + [out];
      var next := Record(o, p, i, steps[i], w, out);
      if next.LoopDone? {
        segs, outs := LoopSegments(o, sha, steps, i + 1, next.p, parentTag, segs, outs);
      }
    }
  }

  /** The tag every branch call of a run forks from. */
  function ParentTag(o: Oracle, valid: bool, title: string, cap: int): string {
    var pre := Prepare(o, valid, title, cap);
    if pre.Ready? then pre.parentTag else NO_BASELINE
  }

  /** The calls of any run, returned or thrown, are the calls of the first steps of the
      truncated plan, one shaped segment a step; a returned run accepted what those say. */
  lemma RunSegments(o: Oracle, sha: string -> string, valid: bool, title: string, cap: int)
    returns (segs: seq<seq<Call>>, outs: seq<StepOutcome>)
    ensures Segmented(o, sha, ParentTag(o, valid, title, cap), segs, outs) && |segs| <= |PlanSteps(o, title, cap)|
    ensures var out := RunTicket(o, sha, valid, title, cap);
      && out.w.calls == Flatten(segs)
      && (out.Returned? && valid ==> out.result.accepted == Taken(PlanSteps(o, title, cap), outs))
  {
    hide Prepare;
    hide Finish;
    segs, outs := [], [];
    var pre := Prepare(o, valid, title, cap);
    PrepareCalls(o, valid, title, cap);
    PrepareInvalid(o, title, cap);
    if pre.Ready? {
      var steps := PlanSteps(o, title, cap);
      var p0 := Progress(pre.w, pre.degraded, [], []);
      segs, outs := LoopSegments(o, sha, steps, 0, p0, pre.parentTag, [], []);
      var loop := StepLoop(o, sha, steps, 0, p0, pre.parentTag);
      if loop.LoopDone? {
        FinishKeeps(o, StepNames(steps), loop.p);
      }
    }
  }
}
