/** When the composer's sort leaves the orchestrator's list alone, and when it does not. */
module ComposeOrder {
  import opened Sequences
  import opened Gate
  import opened Orchestrator
  import opened RunSafety
  import opened Compose

  lemma PlanOrderTotal(ids: seq<string>)
    ensures Preorder(PlanOrder(ids))
  {
  }

  /** The sort is the identity exactly on lists already in plan order. */
  lemma SortIsIdentity(ids: seq<string>, accepted: seq<AcceptedStep>)
    ensures SortedByPlan(ids, accepted) == accepted <==> Sorted(accepted, PlanOrder(ids))
  {
    PlanOrderTotal(ids);
    SortSorted(accepted, PlanOrder(ids));
    if Sorted(accepted, PlanOrder(ids)) {
      SortIdentity(accepted, PlanOrder(ids));
    }
  }

  /** Equal ids stand next to each other. */
  ghost predicate Adjacent(ids: seq<string>) {
    forall i, k, j :: 0 <= i < k < j < |ids| && ids[i] == ids[j] ==> ids[k] == ids[i]
  }

  /** The map the composer builds sends an id to its last position. */
  lemma {:induction false} OrderOfIsLast(ids: seq<string>, i: nat)
    requires i < |ids|
    ensures i <= OrderOf(ids, ids[i]) < |ids| && ids[OrderOf(ids, ids[i])] == ids[i]
  {
    if ids[|ids| - 1] != ids[i] {
      OrderOfIsLast(ids[..|ids| - 1], i);
    }
  }

  /** Earlier positions of the plan never get a greater sort key. */
  ghost predicate KeysGrow(ids: seq<string>) {
    forall i, j :: 0 <= i < j < |ids| ==> OrderOf(ids, ids[i]) <= OrderOf(ids, ids[j])
  }

  lemma AdjacentKeys(ids: seq<string>)
    ensures KeysGrow(ids) <==> Adjacent(ids)
  {
    forall i: nat | i < |ids|
      ensures i <= OrderOf(ids, ids[i]) < |ids| && ids[OrderOf(ids, ids[i])] == ids[i]
    {
      OrderOfIsLast(ids, i);
    }
    hide OrderOf;
    if KeysGrow(ids) {
      forall i, k, j | 0 <= i < k < j < |ids| && ids[i] == ids[j]
        ensures ids[k] == ids[i]
      {
        assert OrderOf(ids, ids[i]) <= OrderOf(ids, ids[k]) <= OrderOf(ids, ids[j]);
      }
    }
  }

  /** The steps of `s` are in plan order and not behind any position from `k` on. */
  ghost predicate InOrder(ids: seq<string>, s: seq<PlanStep>, k: nat) {
    && (forall a, j :: 0 <= a < |s| && k <= j < |ids| ==> OrderOf(ids, s[a].id) <= OrderOf(ids, ids[j]))
    && (forall a, b :: 0 <= a < b < |s| ==> OrderOf(ids, s[a].id) <= OrderOf(ids, s[b].id))
  }

  lemma InOrderAppend(ids: seq<string>, s: seq<PlanStep>, k: nat, x: PlanStep)
    requires InOrder(ids, s, k) && KeysGrow(ids) && k < |ids| && x.id == ids[k]
    ensures InOrder(ids, s, k + 1) && InOrder(ids, s + [x], k + 1)
  {
    assert forall a :: 0 <= a < |s + [x]| ==> (s + [x])[a] == if a < |s| then s[a] else x;
  }

  lemma {:induction false} SelectedInOrder(steps: seq<PlanStep>, mask: seq<bool>, k: nat)
    requires |steps| == |mask| && k <= |steps| && KeysGrow(StepNames(steps))
    ensures InOrder(StepNames(steps), Select(steps[..k], mask[..k], true), k)
  {
    if k > 0 {
      SelectedInOrder(steps, mask, k - 1);
      var ids := StepNames(steps);
      assert steps[..k][..k - 1] == steps[..k - 1] && mask[..k][..k - 1] == mask[..k - 1];
      assert ids[k - 1] == steps[k - 1].id;
      InOrderAppend(ids, Select(steps[..k - 1], mask[..k - 1], true), k - 1, steps[k - 1]);
      hide InOrder;
    }
  }

  /** When equal plan ids are adjacent, the accepted list of a run is already in plan order. */
  lemma AdjacentIdsKeepOrder(steps: seq<PlanStep>, mask: seq<bool>, accepted: seq<AcceptedStep>, rejected: seq<RejectedStep>)
    requires Split(steps, mask, accepted, rejected) && Adjacent(StepNames(steps))
    ensures SortedByPlan(StepNames(steps), accepted) == accepted
  {
    var ids := StepNames(steps);
    AdjacentKeys(ids);
    SelectedInOrder(steps, mask, |steps|);
    assert steps[..|steps|] == steps && mask[..|mask|] == mask;
    var chosen := AcceptedSteps(accepted);
    assert InOrder(ids, chosen, |steps|);
    forall a, b | 0 <= a < b < |accepted|
      ensures PlanOrder(ids)(accepted[a], accepted[b])
    {
      assert chosen[a] == accepted[a].step && chosen[b] == accepted[b].step;
    }
    SortIsIdentity(ids, accepted);
  }

  function Always(n: nat): seq<bool> { if n == 0 then [] else Always(n - 1) + [true] }

  lemma {:induction false} SelectAlways<T>(s: seq<T>)
    ensures |Always(|s|)| == |s| && Select(s, Always(|s|), true) == s && Select(s, Always(|s|), false) == []
  {
    if s != [] {
      SelectAlways(s[..|s| - 1]);
    }
  }

  function AcceptAll(steps: seq<PlanStep>): (all: seq<AcceptedStep>)
    ensures |all| == |steps| && forall i :: 0 <= i < |steps| ==> all[i].step == steps[i]
  {
    Map(steps, (s: PlanStep) => AcceptedStep(s, Candidate("", "", "", ""), SandboxRun("", "", 0, "", "", 0, "", false)))
  }

  lemma AcceptAllSplits(steps: seq<PlanStep>)
    ensures Split(steps, Always(|steps|), AcceptAll(steps), [])
  {
    SelectAlways(steps);
    hide Always;
    hide Select;
    hide AcceptAll;
    assert AcceptedSteps(AcceptAll(steps)) == steps && RejectedSteps([]) == [];
  }

  /** Accepting every step of a plan whose equal ids are apart makes the sort reorder them. */
  lemma ApartReorders(steps: seq<PlanStep>)
    requires !Adjacent(StepNames(steps))
    ensures SortedByPlan(StepNames(steps), AcceptAll(steps)) != AcceptAll(steps)
  {
    var ids, all := StepNames(steps), AcceptAll(steps);
    AdjacentKeys(ids);
    SortIsIdentity(ids, all);
    hide OrderOf;
    hide SortedByPlan;
    hide Adjacent;
    hide AcceptAll;
    var i, j :| 0 <= i < j < |ids| && OrderOf(ids, ids[i]) > OrderOf(ids, ids[j]);
    assert ids[i] == all[i].step.id && ids[j] == all[j].step.id;
    hide StepNames;
    assert !PlanOrder(ids)(all[i], all[j]);
  }

  /** The composer's sort leaves the accepted list in plan order, whichever steps were accepted,
      if and only if equal ids of the plan are adjacent. */
  lemma OrderKeptExactly(steps: seq<PlanStep>)
    ensures Adjacent(StepNames(steps)) <==>
      forall mask, accepted, rejected :: Split(steps, mask, accepted, rejected) ==> SortedByPlan(StepNames(steps), accepted) == accepted
  {
    hide Adjacent;
    hide Split;
    hide SortedByPlan;
    hide StepNames;
    if Adjacent(StepNames(steps)) {
      forall mask, accepted, rejected | Split(steps, mask, accepted, rejected)
        ensures SortedByPlan(StepNames(steps), accepted) == accepted
      {
        AdjacentIdsKeepOrder(steps, mask, accepted, rejected);
      }
    } else {
      AcceptAllSplits(steps);
      ApartReorders(steps);
    }
  }

  /** Every returned run whose plan keeps equal ids adjacent, distinct ids in particular: the
      proposed diff joins the last accepted chunk of each file, in plan order, and the conflicts
      count the dropped entries. */
  lemma ProposalIsLastWins(o: Oracle, sha: string -> string, title: string, cap: int)
    requires Adjacent(StepNames(PlanSteps(o, title, cap)))
    ensures var out := RunTicket(o, sha, true, title, cap);
      out.Returned? && out.result.proposal.Some? ==>
        var kept := Winners(out.result.accepted);
        && |kept| <= |out.result.accepted|
        && out.result.proposal.value.conflicts == |out.result.accepted| - |kept|
        && Joins(kept, out.result.proposal.value.unifiedDiff)
  {
    var steps := PlanSteps(o, title, cap);
    var pre := Prepare(o, true, title, cap);
    hide Prepare;
    hide Finish;
    hide Joins;
    if pre.Ready? {
      var p0 := Progress(pre.w, pre.degraded, [], []);
      var mask := LoopSplits(o, sha, steps, 0, p0, pre.parentTag, []);
      var loop := StepLoop(o, sha, steps, 0, p0, pre.parentTag);
      if loop.LoopDone? {
        FinishKeeps(o, StepNames(steps), loop.p);
        AdjacentIdsKeepOrder(steps, mask, loop.p.accepted, loop.p.rejected);
        WinnersFromBounded(loop.p.accepted, 0);
        ComposedJoins(StepNames(steps), loop.p.accepted);
      }
    } else {
      PrepareInvalid(o, title, cap);
    }
  }

  /** A plan may repeat an id. Then the last position of the id counts for all its entries, an
      earlier step is sorted behind a later one, and its older diff wins the shared file. */
  lemma RepeatedIdsReorder(e0: AcceptedStep, e1: AcceptedStep, e2: AcceptedStep)
    requires e0.step.id == e2.step.id == "step-1" && e1.step.id == "step-2"
    requires e0.diff.file == e1.diff.file != e2.diff.file
    ensures var ids := ["step-1", "step-2", "step-1"];
      && SortedByPlan(ids, [e0, e1, e2]) == [e1, e0, e2]
      && Winners(SortedByPlan(ids, [e0, e1, e2])) == [e0, e2]
      && Winners([e0, e1, e2]) == [e1, e2]
  {
    var ids := ["step-1", "step-2", "step-1"];
    var le := PlanOrder(ids);
    assert ids[..2] == ["step-1", "step-2"];
    assert OrderOf(ids, "step-1") == 2 && OrderOf(ids, "step-2") == 1;
    var s := [e0, e1, e2];
    assert s[1..] == [e1, e2] && s[1..][1..] == [e2] && s[1..][1..][1..] == [];
    assert StableSort([e2], le) == [e2];
    assert StableSort([e1, e2], le) == [e1, e2];
    assert Insert(e0, [e1, e2], le) == [e1, e0, e2];
    ThreeWinners(e1, e0, e2);
    ThreeWinners(e0, e1, e2);
  }

  lemma ThreeWinners(a: AcceptedStep, b: AcceptedStep, c: AcceptedStep)
    requires a.diff.file == b.diff.file != c.diff.file
    ensures Winners([a, b, c]) == [b, c]
  {
    var s := [a, b, c];
    assert WinnersFrom(s, 3) == [];
    assert WinnersFrom(s, 2) == [c];
    assert IsLast(s, 1);
    assert WinnersFrom(s, 1) == [b, c];
    assert s[1].diff.file == s[0].diff.file;
    assert !IsLast(s, 0);
  }
}
