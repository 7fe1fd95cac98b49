/** What every envelope of a run's stream satisfies, and the console's planning and pull
    request panels that read it. */
module RunStream {
  import opened Sequences
  import opened Gate
  import opened StepIds
  import opened Orchestrator
  import opened Selectors
  import opened RunView
  import opened RunInvariant
  import RunEvents
  import RunDegraded
  import RunWords
  import RunSafety
  import Compose

  ghost predicate Every(log: seq<Envelope>, q: Envelope -> bool) { forall e :: e in log ==> q(e) }

  lemma EveryKept(o: Oracle, q: Envelope -> bool)
    ensures Keeps(o, q, (log: seq<Envelope>, k: nat) => Every(log, q))
  {
  }

  /** Whatever holds of everything a run may publish holds of everything it published. */
  lemma EveryEnvelope(o: Oracle, sha: string -> string, title: string, cap: int, q: Envelope -> bool)
    requires RunTicket(o, sha, true, title, cap).Returned? && CoversSteps(q)
    requires CoversPhases(q, StepNames(PlanSteps(o, title, cap)), RunTicket(o, sha, true, title, cap).result.accepted)
    ensures Every(RunTicket(o, sha, true, title, cap).w.log, q)
  {
    hide RunTicket;
    hide Keeps;
    EveryKept(o, q);
    StreamInvariant(o, sha, title, cap, q, (log: seq<Envelope>, k: nat) => Every(log, q));
  }

  predicate PlanSays(e: Envelope, names: seq<string>) {
    e.id == Planning && e.status == Done ==> e.payload == PlanPayload(names)
  }

  predicate PrSays(e: Envelope, diff: string) {
    e.id == StepId.Pr && e.payload.PrPayload? ==> e.payload.unifiedDiff == "" || e.payload.unifiedDiff == diff
  }

  lemma PlanCovered(names: seq<string>, accepted: seq<AcceptedStep>)
    ensures CoversSteps(e => PlanSays(e, names)) && CoversPhases(e => PlanSays(e, names), names, accepted)
  {
  }

  lemma PrCovered(names: seq<string>, accepted: seq<AcceptedStep>)
    ensures var q := (e: Envelope) => PrSays(e, Compose.Composed(names, accepted).unifiedDiff);
      CoversSteps(q) && CoversPhases(q, names, accepted)
  {
    hide Compose.Composed;
  }

  // ------------------------------------------------------------------- the panels

  /** When the stream delivers, the planning panel is there. */
  lemma PlanningShown(o: Oracle, sha: string -> string, title: string, cap: int, trace: string)
    requires AllSent(o) && RunTicket(o, sha, true, title, cap).Returned?
    ensures LastPlanning(WireLog(RunTicket(o, sha, true, title, cap).w.log, trace)).Some?
  {
    hide RunTicket;
    hide AllSent;
    var segs := RunWords.LogLanguage(o, sha, title, cap);
    var log := RunTicket(o, sha, true, title, cap).w.log;
    LastPlanningExact(WireLog(log, trace));
    assert WireLog(log, trace)[9] == WireOf(trace)(log[9]) && WireLog(log, trace)[9] in WireLog(log, trace);
    hide LastPlanning;
    hide Text;
  }

  /** What the planning panel shows of a run: the plan in order, `pass` beside every accepted step,
      and beside accepted steps only, if and only if no publish that delivered a green verdict
      raised an error. When the stream delivers, the panel is there. */
  ghost predicate ShowsPlan(o: Oracle, w: World, steps: seq<PlanStep>, mask: seq<bool>, shown: Option<seq<PlanStepView>>) {
    && |mask| == |steps|
    && (AllSent(o) ==> shown.Some?)
    && (shown.Some? ==>
          var views := shown.value;
          && |views| == |steps|
          && (forall i :: 0 <= i < |views| ==> views[i].id == steps[i].id && (mask[i] ==> views[i].verdict == Pass))
          && ((forall i :: 0 <= i < |views| ==> (views[i].verdict == Pass <==> mask[i])) <==> !Escapes(o, w)))
  }

  lemma PlanningOfScope(o: Oracle, sha: string -> string, title: string, cap: int, own: string, trace: string, all: seq<Wire>)
    returns (mask: seq<bool>)
    requires Honest(o, sha) && NonEmptyDrafts(o)
    requires RunTicket(o, sha, true, title, cap).Returned?
    requires Scoped(all, trace) == WireLog(RunTicket(o, sha, true, title, cap).w.log, own)
    ensures var out := RunTicket(o, sha, true, title, cap);
      && RunSafety.Split(PlanSteps(o, title, cap), mask, out.result.accepted, out.result.rejected)
      && ShowsPlan(o, out.w, PlanSteps(o, title, cap), mask, SelectPlanning(all, trace))
  {
    var steps := PlanSteps(o, title, cap);
    var names := StepNames(steps);
    var out := RunTicket(o, sha, true, title, cap);
    hide RunTicket;
    hide RunSafety.Split;
    hide BestHit;
    hide Escapes;
    hide AllSent;
    hide EscapedAt;
    hide Truncate;
    mask := PassMeansAccepted(o, sha, title, cap, own);
    PlanCovered(names, out.result.accepted);
    EveryEnvelope(o, sha, title, cap, e => PlanSays(e, names));
    hide EscapedAt;
    hide Honest;
    hide NonEmptyDrafts;
    if AllSent(o) {
      PlanningShown(o, sha, title, cap, own);
    }
    PlanFound(out.w.log, own, names);
    hide LastPlanning;
    hide Every;
    assert forall i :: 0 <= i < |steps| ==> names[i] == steps[i].id;
    hide StepNames;
    assert SelectPlanning(all, trace).Some? ==>
      SelectPlanning(all, trace).value == StepViews(WireLog(out.w.log, own), names);
    hide Scoped;
    hide SelectPlanning;
  }

  lemma ScopeOfTrace(all: seq<Wire>, trace: string)
    requires trace != ""
    ensures Scoped(all, trace) == Filter(all, (w: Wire) => w.trace == trace)
  {
    FilterSame(all, (w: Wire) => trace == "" || w.trace == trace, (w: Wire) => w.trace == trace);
  }

  lemma ScopeOfAll(all: seq<Wire>)
    ensures Scoped(all, "") == all
  {
    FilterAll(all, (w: Wire) => "" == "" || w.trace == "");
  }

  /** Events of other traces around a run's own do not reach its panels. */
  lemma OtherTraces(log: seq<Envelope>, trace: string, before: seq<Wire>, after: seq<Wire>)
    requires forall w :: w in before || w in after ==> w.trace != trace
    ensures Filter(before + WireLog(log, trace) + after, (w: Wire) => w.trace == trace) == WireLog(log, trace)
  {
    var own := (w: Wire) => w.trace == trace;
    var mine := WireLog(log, trace);
    FilterAppend(before + mine, after, own);
    FilterAppend(before, mine, own);
    FilterNone(before, own);
    FilterNone(after, own);
    FilterAll(mine, own) by {
      assert forall i :: 0 <= i < |mine| ==> mine[i] == WireOf(trace)(log[i]);
    }
    assert [] + mine == mine && mine + [] == mine;
  }

  /** The planning panel of a trace shows the run of that trace, whatever other runs are in the
      log. */
  lemma PlanningPanel(o: Oracle, sha: string -> string, title: string, cap: int, trace: string, all: seq<Wire>)
    returns (mask: seq<bool>)
    requires Honest(o, sha) && NonEmptyDrafts(o) && trace != ""
    requires RunTicket(o, sha, true, title, cap).Returned?
    requires Filter(all, (w: Wire) => w.trace == trace) == WireLog(RunTicket(o, sha, true, title, cap).w.log, trace)
    ensures var out := RunTicket(o, sha, true, title, cap);
      && RunSafety.Split(PlanSteps(o, title, cap), mask, out.result.accepted, out.result.rejected)
      && ShowsPlan(o, out.w, PlanSteps(o, title, cap), mask, SelectPlanning(all, trace))
  {
    ScopeOfTrace(all, trace);
    mask := PlanningOfScope(o, sha, title, cap, trace, trace, all);
  }

  /** Without a trace the panel reads the whole log, so it shows the run when the log holds only
      that. */
  lemma PlanningWithoutTrace(o: Oracle, sha: string -> string, title: string, cap: int, own: string) returns (mask: seq<bool>)
    requires Honest(o, sha) && NonEmptyDrafts(o)
    requires RunTicket(o, sha, true, title, cap).Returned?
    ensures var out := RunTicket(o, sha, true, title, cap);
      && RunSafety.Split(PlanSteps(o, title, cap), mask, out.result.accepted, out.result.rejected)
      && ShowsPlan(o, out.w, PlanSteps(o, title, cap), mask, SelectPlanning(WireLog(out.w.log, own), ""))
  {
    hide RunTicket;
    var all := WireLog(RunTicket(o, sha, true, title, cap).w.log, own);
    ScopeOfAll(all);
    mask := PlanningOfScope(o, sha, title, cap, own, "", all);
  }

  lemma PlanFound(log: seq<Envelope>, trace: string, names: seq<string>)
    requires Every(log, e => PlanSays(e, names))
    ensures var found := LastPlanning(WireLog(log, trace)); found.Some? ==> found.value.payload == PlanPayload(names)
  {
    var list := WireLog(log, trace);
    LastPlanningExact(list);
    var found := LastPlanning(list);
    hide LastPlanning;
    if found.Some? {
      var k :| 0 <= k < |list| && list[k] == found.value;
      FixedTexts(log[k].id);
      assert log[k] in log;
      assert PlanSays(log[k], names);
    }
  }

  /** When the stream delivers, the last pull request envelope is the result's. */
  lemma PrShown(o: Oracle, sha: string -> string, title: string, cap: int, trace: string)
    requires AllSent(o) && RunTicket(o, sha, true, title, cap).Returned?
    ensures var out := RunTicket(o, sha, true, title, cap);
      LastPr(WireLog(out.w.log, trace)) ==
        Some(WireOf(trace)(PrEnvelope(out.result.accepted, out.result.rejected, out.result.proposal, out.result.degraded)))
  {
    hide *;
    var segs := RunWords.LogLanguage(o, sha, title, cap);
    var out := RunTicket(o, sha, true, title, cap);
    ClosesWithPr(o, out.w.log, out.result);
    LastPrAtEnd(out.w.log, trace);
  }

  lemma ClosesWithPr(o: Oracle, log: seq<Envelope>, result: RunResult)
    requires RunDegraded.Closing(o, log, result)
    ensures log != [] && log[|log| - 1].id == StepId.Pr
    ensures log[|log| - 1] == PrEnvelope(result.accepted, result.rejected, result.proposal, result.degraded)
  {
  }

  lemma LastPrAtEnd(log: seq<Envelope>, trace: string)
    requires log != [] && log[|log| - 1].id == StepId.Pr
    ensures LastPr(WireLog(log, trace)) == Some(WireOf(trace)(log[|log| - 1]))
  {
    hide Text;
    assert WireLog(log, trace)[|log| - 1] == WireOf(trace)(log[|log| - 1]);
  }

  /** What the pull request panel shows of a run: nothing, or the trimmed diffs of accepted steps.
      When the stream delivers, it is exactly the diff of the proposal that the run returned. */
  ghost predicate ShowsPr(o: Oracle, result: RunResult, shown: Option<string>) {
    && (shown.Some? && shown.value != "" ==>
          exists kept :: Compose.Joins(kept, shown.value) && forall e :: e in kept ==> e in result.accepted)
    && (AllSent(o) ==> shown == Some(if result.proposal.Some? then result.proposal.value.unifiedDiff else ""))
  }

  lemma PrOfScope(o: Oracle, sha: string -> string, title: string, cap: int, own: string, trace: string, all: seq<Wire>)
    requires RunTicket(o, sha, true, title, cap).Returned?
    requires Scoped(all, trace) == WireLog(RunTicket(o, sha, true, title, cap).w.log, own)
    ensures ShowsPr(o, RunTicket(o, sha, true, title, cap).result, SelectPrDiff(all, trace))
  {
    var names := StepNames(PlanSteps(o, title, cap));
    var out := RunTicket(o, sha, true, title, cap);
    hide RunTicket;
    hide AllSent;
    hide StepNames;
    hide PlanSteps;
    var diff := Compose.Composed(names, out.result.accepted).unifiedDiff;
    hide Compose.Composed;
    hide Compose.Joins;
    hide LastPr;
    hide Every;
    hide WireLog;
    hide Scoped;
    if AllSent(o) {
      PrShown(o, sha, title, cap, own);
    }
    PrEvery(o, sha, title, cap);
    PrFound(out.w.log, own, diff);
    RunSafety.ChunksAreAccepted(names, out.result.accepted);
  }

  lemma PrEvery(o: Oracle, sha: string -> string, title: string, cap: int)
    requires RunTicket(o, sha, true, title, cap).Returned?
    ensures var out := RunTicket(o, sha, true, title, cap);
      var diff := Compose.Composed(StepNames(PlanSteps(o, title, cap)), out.result.accepted).unifiedDiff;
      Every(out.w.log, e => PrSays(e, diff))
  {
    hide *;
    var names, accepted := StepNames(PlanSteps(o, title, cap)), RunTicket(o, sha, true, title, cap).result.accepted;
    PrCovered(names, accepted);
    EveryEnvelope(o, sha, title, cap, e => PrSays(e, Compose.Composed(names, accepted).unifiedDiff));
  }

  /** The pull request panel of a trace shows the run of that trace, whatever other runs are in the
      log. */
  lemma PrPanel(o: Oracle, sha: string -> string, title: string, cap: int, trace: string, all: seq<Wire>)
    requires RunTicket(o, sha, true, title, cap).Returned? && trace != ""
    requires Filter(all, (w: Wire) => w.trace == trace) == WireLog(RunTicket(o, sha, true, title, cap).w.log, trace)
    ensures ShowsPr(o, RunTicket(o, sha, true, title, cap).result, SelectPrDiff(all, trace))
  {
    ScopeOfTrace(all, trace);
    PrOfScope(o, sha, title, cap, trace, trace, all);
  }

  lemma PrWithoutTrace(o: Oracle, sha: string -> string, title: string, cap: int, own: string)
    requires RunTicket(o, sha, true, title, cap).Returned?
    ensures var out := RunTicket(o, sha, true, title, cap); ShowsPr(o, out.result, SelectPrDiff(WireLog(out.w.log, own), ""))
  {
    hide RunTicket;
    var all := WireLog(RunTicket(o, sha, true, title, cap).w.log, own);
    ScopeOfAll(all);
    PrOfScope(o, sha, title, cap, own, "", all);
  }

  lemma PrFound(log: seq<Envelope>, trace: string, diff: string)
    requires Every(log, e => PrSays(e, diff))
    ensures var found := LastPr(WireLog(log, trace));
      found.Some? && found.value.payload.PrPayload? ==> found.value.payload.unifiedDiff in {"", diff}
  {
    var list := WireLog(log, trace);
    LastPrExact(list);
    var found := LastPr(list);
    hide LastPr;
    if found.Some? {
      var k :| 0 <= k < |list| && list[k] == found.value;
      FixedTexts(log[k].id);
      assert log[k] in log;
      assert PrSays(log[k], diff);
    }
  }
}
