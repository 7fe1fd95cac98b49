/** The ticket-to-PR run (orchestrator/run.ts) as a function of everything it cannot
    control: each answer of the model, the sandbox, the ledger, the publisher and the PR
    service is a field of `Oracle`, so a statement about all oracles is a statement about
    every behaviour of the outside world. */
module Orchestrator {
  import opened Sequences
  import opened Gate
  import opened StepIds
  import Compose

  // ------------------------------------------------------------------- what a run leaves

  datatype Status = Started | Done | Failed

  datatype Payload =
    | NoPayload
    | Reason(text: string)
    | PlanPayload(stepIds: seq<string>)
    | DraftPayload(stepId: string, file: string, diffSha: string)
    | VerifyPayload(unitId: string, exitCode: int, gateOk: bool, rolledBack: bool, verifiedSha: string)
    | PrPayload(unifiedDiff: string, acceptedCount: nat, rejectedCount: nat)

  datatype Envelope = Envelope(id: StepId, status: Status, degraded: bool, payload: Payload)

  /** Calls that leave the process, in order. `reached` says whether the sandbox executed
      the call; the answer may still be lost on the way back. */
  datatype Call =
    | Llm(n: nat, redraft: bool)
    | Branch(n: nat, diff: Candidate, parentTag: string, reply: BranchReply)
    | Rollback(n: nat, branchTag: string, parentTag: string, reached: bool)

  datatype World = World(log: seq<Envelope>, publishes: nat, calls: seq<Call>)

  // ------------------------------------------------------------------- what answers it

  /** A publish is delivered, raises before the envelope is recorded, or raises after. */
  datatype PublishReply = Sent | Dropped(missing: bool) | SentThenRaised(missing: bool)

  /** `missing` marks the errors the source treats as a missing module. */
  datatype Raise = Quiet | Raised(missing: bool)

  datatype PhaseReply = Good | Degraded | Malformed(missing: bool)

  datatype DraftReply =
    | RenderFails(missing: bool)
    | DraftDegraded(salvaged: Option<Candidate>)
    | Unparsed
    | Drafted(diff: Candidate)

  datatype BranchReply = BranchReply(reached: bool, run: Option<SandboxRun>)

  datatype PlanReply = NoPlan(missing: bool) | PlanDegraded | PlanUnparsed | Planned(steps: seq<PlanStep>)

  datatype PrReply = ComposeRaises(missing: bool) | PrDegraded | Published(url: Option<string>)

  datatype Oracle = Oracle(
    publish: nat -> PublishReply,
    grounding: PhaseReply,
    baseline: PhaseReply,
    baselineTag: string,
    pack: Raise,
    planner: PlanReply,
    overBudget: nat -> bool,
    draft: nat -> DraftReply,
    redraft: nat -> DraftReply,
    branch: (nat, bool) -> BranchReply,
    rollbackReaches: (nat, bool) -> bool,
    ledger: nat -> PhaseReply,
    pr: nat -> PrReply)

  /** The diff that an attempt of step `n` sends to the sandbox, if it gets that far. */
  function Attempted(o: Oracle, n: nat, second: bool): Option<Candidate> {
    var reply := if second then o.redraft(n) else o.draft(n);
    match reply
    case Drafted(d) => Some(d)
    case DraftDegraded(salvaged) => if second then None else salvaged
    case _ => None
  }

  // ------------------------------------------------------------------- publishing

  function Publish(o: Oracle, w: World, e: Envelope): (World, Raise) {
    var counted := w.(publishes := w.publishes + 1);
    match o.publish(w.publishes)
    case Sent => (counted.(log := w.log + [e]), Quiet)
    case Dropped(missing) => (counted, Raised(missing))
    case SentThenRaised(missing) => (counted.(log := w.log + [e]), Raised(missing))
  }

  /** Every publish is delivered. */
  ghost predicate AllSent(o: Oracle) { forall k :: o.publish(k) == Sent }

  /** `try { publish } catch { ignore }`. */
  function PublishIgnored(o: Oracle, w: World, e: Envelope): World { Publish(o, w, e).0 }

  function Begin(id: StepId): Envelope { Envelope(id, Started, false, NoPayload) }

  function FailedEnvelope(id: StepId): Envelope { Envelope(id, Failed, true, Reason("error")) }

  function Ask(w: World, c: Call): World { w.(calls := w.calls + [c]) }

  // ------------------------------------------------------------------- one sandbox verification

  datatype VerifyOutcome = VerifyThrew(missing: bool) | Verified(ok: bool, branchTag: string, run: Option<SandboxRun>)

  function VerifyId(n: nat, second: bool): StepId { if second then Reverify(n) else Verify(n) }

  function DegradedVerify(id: StepId, d: Candidate): Envelope {
    Envelope(id, Failed, true, VerifyPayload(d.stepId, -1, false, false, ""))
  }

  function VerdictEnvelope(sha: string -> string, id: StepId, d: Candidate, r: SandboxRun): Envelope {
    Envelope(id, Done, false,
      VerifyPayload(d.stepId, r.exitCode, IsMergeable(sha, d, r).Green?, r.rolledBack, r.verifiedSha))
  }

  function VerifyDiff(o: Oracle, sha: string -> string, w: World, n: nat, second: bool, d: Candidate, parentTag: string)
    : (World, VerifyOutcome)
  {
    var id := VerifyId(n, second);
    var (w1, r1) := Publish(o, w, Begin(id));
    if r1.Raised? then (w1, VerifyThrew(r1.missing)) else
    var reply := o.branch(n, second);
    var w2 := Ask(w1, Branch(n, d, parentTag, reply));
    match reply.run
    case None =>
      var (w3, r3) := Publish(o, w2, DegradedVerify(id, d));
      (w3, if r3.Raised? then VerifyThrew(r3.missing) else Verified(false, "unknown", None))
    case Some(run) =>
      var (w3, r3) := Publish(o, w2, VerdictEnvelope(sha, id, d, run));
      (w3, if r3.Raised? then VerifyThrew(r3.missing)
           else Verified(IsMergeable(sha, d, run).Green?, run.branchTag, Some(run)))
  }

  // ------------------------------------------------------------------- one plan step

  datatype StepOutcome =
    | StepThrew(missing: bool)
    | StepDone(accept: bool, diff: Option<Candidate>, run: Option<SandboxRun>, degraded: bool)

  function DraftEnvelope(sha: string -> string, id: StepId, s: PlanStep, d: Candidate, degraded: bool): Envelope {
    Envelope(id, Done, degraded, DraftPayload(s.id, d.file, sha(d.unifiedDiff)))
  }

  /** The envelope of a degraded model answer: no diff, and the plan step's own file. */
  function LostDraft(id: StepId, s: PlanStep): Envelope {
    Envelope(id, Failed, true, DraftPayload(s.id, s.file, ""))
  }

  function UnparsedDraft(id: StepId): Envelope { Envelope(id, Failed, false, Reason("parse-failed")) }

  /** Publish a failing envelope and leave the step without a diff to accept. */
  function GiveUp(o: Oracle, w: World, e: Envelope, out: StepOutcome): (World, StepOutcome) {
    var (w1, r1) := Publish(o, w, e);
    (w1, if r1.Raised? then StepThrew(r1.missing) else out)
  }

  /** The one re-draft after a red build: roll back, draft again, verify again. */
  function RedraftOnce(o: Oracle, sha: string -> string, w: World, n: nat, s: PlanStep, parentTag: string,
                       first: Candidate, firstRun: SandboxRun, degraded: bool): (World, StepOutcome)
  {
    var w1 := Ask(w, Rollback(n, firstRun.branchTag, parentTag, o.rollbackReaches(n, false)));
    var (w2, r2) := Publish(o, w1, Begin(Redraft(n)));
    if r2.Raised? then (w2, StepThrew(r2.missing)) else
    match o.redraft(n)
    case RenderFails(missing) => (w2, StepThrew(missing))
    case DraftDegraded(_) =>
      GiveUp(o, Ask(w2, Llm(n, true)), LostDraft(Redraft(n), s), StepDone(false, Some(first), Some(firstRun), true))
    case Unparsed =>
      GiveUp(o, Ask(w2, Llm(n, true)), UnparsedDraft(Redraft(n)), StepDone(false, Some(first), Some(firstRun), true))
    case Drafted(d) =>
      var (w3, r3) := Publish(o, Ask(w2, Llm(n, true)), DraftEnvelope(sha, Redraft(n), s, d, degraded));
      if r3.Raised? then (w3, StepThrew(r3.missing)) else
      var (w4, v) := VerifyDiff(o, sha, w3, n, true, d, parentTag);
      if v.VerifyThrew? then (w4, StepThrew(v.missing))
      else if v.ok && v.run.Some? then (w4, StepDone(true, Some(d), v.run, degraded))
      else
        var w5 := Ask(w4, Rollback(n, v.branchTag, parentTag, o.rollbackReaches(n, true)));
        (w5, StepDone(false, Some(d), v.run, degraded || v.run.None?))
  }

  /** Verify the first draft; a verdict that is red leads to the one re-draft. */
  function VerifyDraft(o: Oracle, sha: string -> string, w: World, n: nat, s: PlanStep, parentTag: string,
                       d: Candidate, degraded: bool): (World, StepOutcome)
  {
    var (w1, r1) := Publish(o, w, DraftEnvelope(sha, Draft(n), s, d, degraded));
    if r1.Raised? then (w1, StepThrew(r1.missing)) else
    var (w2, v) := VerifyDiff(o, sha, w1, n, false, d, parentTag);
    if v.VerifyThrew? then (w2, StepThrew(v.missing))
    else if v.run.None? then (w2, StepDone(false, Some(d), None, true))
    else if v.ok then (w2, StepDone(true, Some(d), v.run, degraded))
    else RedraftOnce(o, sha, w2, n, s, parentTag, d, v.run.value, degraded)
  }

  function RunOneStep(o: Oracle, sha: string -> string, w: World, n: nat, s: PlanStep, parentTag: string): (World, StepOutcome) {
    var (w1, r1) := Publish(o, w, Begin(Draft(n)));
    if r1.Raised? then (w1, StepThrew(r1.missing)) else
    match o.draft(n)
    case RenderFails(missing) => (w1, StepThrew(missing))
    case DraftDegraded(salvaged) =>
      if salvaged.None? then
        GiveUp(o, Ask(w1, Llm(n, false)), LostDraft(Draft(n), s), StepDone(false, None, None, true))
      else VerifyDraft(o, sha, Ask(w1, Llm(n, false)), n, s, parentTag, salvaged.value, true)
    case Unparsed =>
      GiveUp(o, Ask(w1, Llm(n, false)), UnparsedDraft(Draft(n)), StepDone(false, None, None, false))
    case Drafted(d) => VerifyDraft(o, sha, Ask(w1, Llm(n, false)), n, s, parentTag, d, false)
  }

  // ------------------------------------------------------------------- the step loop

  datatype RejectedWhy = BudgetExhausted | Threw | RedBuild(exitCode: int) | DraftLost | NotAccepted

  datatype RejectedStep = RejectedStep(step: PlanStep, diff: Option<Candidate>, run: Option<SandboxRun>, why: RejectedWhy)

  datatype Progress = Progress(w: World, degraded: bool, accepted: seq<AcceptedStep>, rejected: seq<RejectedStep>)

  datatype LoopResult = LoopCrashed(w: World) | LoopDone(p: Progress)

  /** Report a missing module on the stream; the error is then raised again. */
  function ReportMissing(o: Oracle, w: World, id: StepId): World {
    PublishIgnored(o, w, Envelope(id, Failed, true, Reason("contract-missing")))
  }

  function BudgetReject(s: PlanStep): RejectedStep { RejectedStep(s, None, None, BudgetExhausted) }

  function WhyRejected(run: Option<SandboxRun>, degraded: bool): RejectedWhy {
    if run.Some? then RedBuild(run.value.exitCode) else if degraded then DraftLost else NotAccepted
  }

  /** What one loop iteration makes of a step's outcome. */
  function Record(o: Oracle, p: Progress, n: nat, s: PlanStep, w: World, out: StepOutcome): LoopResult {
    match out
    case StepThrew(missing) =>
      if missing then LoopCrashed(ReportMissing(o, ReportMissing(o, w, Draft(n)), Draft(n)))
      else LoopDone(Progress(PublishIgnored(o, w, FailedEnvelope(Draft(n))), true, p.accepted,
                             p.rejected + [RejectedStep(s, None, None, Threw)]))
    case StepDone(accept, diff, run, degraded) =>
      if accept && diff.Some? && run.Some? then
        LoopDone(Progress(w, p.degraded || degraded, p.accepted + [AcceptedStep(s, diff.value, run.value)], p.rejected))
      else
        LoopDone(Progress(w, p.degraded || degraded, p.accepted, p.rejected +
          [RejectedStep(s, diff, run, WhyRejected(run, degraded))]))
  }

  function StepLoop(o: Oracle, sha: string -> string, steps: seq<PlanStep>, i: nat, p: Progress, parentTag: string): LoopResult
    requires i <= |steps|
    decreases |steps| - i
  {
    if i == |steps| then LoopDone(p)
    else if o.overBudget(i) then
      LoopDone(Progress(PublishIgnored(o, p.w, Envelope(Draft(i), Failed, true, Reason("budget-exhausted"))),
                        true, p.accepted, p.rejected + Map(steps[i..], BudgetReject)))
    else
      var (w, out) := RunOneStep(o, sha, p.w, i, steps[i], parentTag);
      match Record(o, p, i, steps[i], w, out)
      case LoopCrashed(w1) => LoopCrashed(w1)
      case LoopDone(p1) => StepLoop(o, sha, steps, i + 1, p1, parentTag)
  }

  // ------------------------------------------------------------------- phases before the loop

  datatype Flow = Crash(w: World) | Go(w: World, degraded: bool)

  /** A publish whose failure only matters when it signals a missing module. */
  function SoftPublish(o: Oracle, w: World, degraded: bool, e: Envelope): Flow {
    var (w1, r1) := Publish(o, w, e);
    if r1.Raised? && r1.missing then Crash(w1) else Go(w1, degraded)
  }

  /** `catch` of a phase: report and re-raise a missing module, degrade on anything else. */
  function Recover(o: Oracle, w: World, r: Raise, id: StepId): Flow
    requires r.Raised?
  {
    if r.missing then Crash(ReportMissing(o, w, id)) else Go(PublishIgnored(o, w, FailedEnvelope(id)), true)
  }

  /** Grounding and baseline: start, ask, report; the second result says the phase succeeded. */
  function AskPhase(o: Oracle, w: World, degraded: bool, id: StepId, reply: PhaseReply, lost: Status): (Flow, bool) {
    match SoftPublish(o, w, degraded, Begin(id))
    case Crash(w1) => (Crash(w1), false)
    case Go(w1, d1) =>
      if reply.Malformed? then (Recover(o, w1, Raised(reply.missing), id), false)
      else
        var bad := reply.Degraded?;
        var (w2, r2) := Publish(o, w1, Envelope(id, if bad then lost else Done, bad, NoPayload));
        if r2.Raised? then (Recover(o, w2, r2, id), false) else (Go(w2, d1 || bad), !bad)
  }

  function OpenTicket(o: Oracle, w: World, valid: bool): Flow {
    match SoftPublish(o, w, false, Begin(StepId.Intake))
    case Crash(w1) => Crash(w1)
    case Go(w1, _) =>
      if valid then SoftPublish(o, w1, false, Envelope(StepId.Intake, Done, false, NoPayload))
      else Go(PublishIgnored(o, w1, Envelope(StepId.Intake, Failed, true, Reason("invalid-ticket"))), true)
  }

  /** Context packing: anything that goes wrong ends the run with an error. */
  function PackContext(o: Oracle, w: World, degraded: bool): Flow {
    match SoftPublish(o, w, degraded, Begin(ContextPack))
    case Crash(w1) => Crash(w1)
    case Go(w1, d1) =>
      if o.pack.Raised? then Crash(if o.pack.missing then ReportMissing(o, w1, ContextPack) else w1)
      else
        var (w2, r2) := Publish(o, w1, Envelope(ContextPack, Done, false, NoPayload));
        if r2.Quiet? then Go(w2, d1) else Crash(if r2.missing then ReportMissing(o, w2, ContextPack) else w2)
  }

  function FallbackPlan(title: string): seq<PlanStep> {
    [PlanStep("s1", "fallback.txt", if |title| <= 120 then title else title[..120], "sandbox test command exits 0")]
  }

  /** JavaScript `steps.slice(0, cap)`, taken only when there are more steps than the cap. */
  function Truncate<T>(steps: seq<T>, cap: int): seq<T> {
    if |steps| <= cap then steps
    else if cap >= 0 then steps[..cap]
    else if |steps| + cap <= 0 then []
    else steps[..|steps| + cap]
  }

  function PlanSteps(o: Oracle, title: string, cap: int): seq<PlanStep> {
    Truncate(if o.planner.Planned? then o.planner.steps else FallbackPlan(title), cap)
  }

  function StepNames(steps: seq<PlanStep>): seq<string> { Map(steps, (s: PlanStep) => s.id) }

  function MakePlan(o: Oracle, w: World, degraded: bool, steps: seq<PlanStep>): Flow {
    match SoftPublish(o, w, degraded, Begin(Planning))
    case Crash(w1) => Crash(w1)
    case Go(w1, d1) =>
      if o.planner.NoPlan? && o.planner.missing then Crash(ReportMissing(o, w1, Planning))
      else
        var d2 := d1 || !o.planner.Planned?;
        SoftPublish(o, w1, d2, Envelope(Planning, Done, d2, PlanPayload(StepNames(steps))))
  }

  // ------------------------------------------------------------------- ledger and PR

  datatype Tail = Tail(w: World, degraded: bool, proposal: Option<Compose.Proposal>, r: Raise)

  /** Ledger phase; a raise from its first or last publish is the caller's. */
  function DoLedger(o: Oracle, t: Tail, k: nat): Tail {
    var (w1, r1) := Publish(o, t.w, Begin(StepId.Ledger));
    if r1.Raised? then t.(w := w1, r := r1) else
    var bad := o.ledger(k).Degraded?;
    var (w2, r2) := if o.ledger(k).Malformed? then (w1, Raised(o.ledger(k).missing))
                    else Publish(o, w1, Envelope(StepId.Ledger, if bad then Failed else Done, bad, NoPayload));
    if r2.Quiet? then Tail(w2, t.degraded || bad, t.proposal, Quiet)
    else if r2.missing then Tail(ReportMissing(o, w2, StepId.Ledger), t.degraded || bad, t.proposal, r2)
    else
      var (w3, r3) := Publish(o, w2, FailedEnvelope(StepId.Ledger));
      Tail(w3, true, t.proposal, r3)
  }

  function PrEnvelope(accepted: seq<AcceptedStep>, rejected: seq<RejectedStep>, proposal: Option<Compose.Proposal>, degraded: bool): Envelope {
    Envelope(StepId.Pr, Done, degraded,
      PrPayload(if proposal.Some? then proposal.value.unifiedDiff else "", |accepted|, |rejected|))
  }

  function DoPr(o: Oracle, ids: seq<string>, accepted: seq<AcceptedStep>, rejected: seq<RejectedStep>, t: Tail, k: nat): Tail {
    var (w1, r1) := Publish(o, t.w, Begin(StepId.Pr));
    if r1.Raised? then t.(w := w1, r := r1)
    else if o.pr(k).ComposeRaises? then PrFailed(o, accepted, rejected, t.(w := w1), Raised(o.pr(k).missing))
    else
      var url := if o.pr(k).Published? then o.pr(k).url else None;
      var d2 := t.degraded || o.pr(k).PrDegraded?;
      var proposal := Some(Compose.Composed(ids, accepted).(url := url));
      var (w2, r2) := Publish(o, w1, PrEnvelope(accepted, rejected, proposal, d2));
      if r2.Quiet? then Tail(w2, d2, proposal, Quiet) else PrFailed(o, accepted, rejected, Tail(w2, d2, proposal, Quiet), r2)
  }

  /** The `catch` of the PR phase. */
  function PrFailed(o: Oracle, accepted: seq<AcceptedStep>, rejected: seq<RejectedStep>, t: Tail, r: Raise): Tail
    requires r.Raised?
  {
    if r.missing then Tail(ReportMissing(o, t.w, StepId.Pr), t.degraded, t.proposal, r)
    else
      var proposal := if t.proposal.Some? then Some(t.proposal.value.(url := None)) else None;
      var (w1, r1) := Publish(o, t.w, PrEnvelope(accepted, rejected, proposal, true));
      Tail(w1, true, proposal, r1)
  }

  // ------------------------------------------------------------------- the whole run

  datatype RunResult = RunResult(
    accepted: seq<AcceptedStep>, rejected: seq<RejectedStep>, proposal: Option<Compose.Proposal>, degraded: bool)

  datatype RunOutcome = RunThrew(w: World) | Returned(w: World, result: RunResult)

  /** After an escaped error: report it, then try ledger and PR once more and swallow errors. */
  function LastResort(o: Oracle, ids: seq<string>, accepted: seq<AcceptedStep>, rejected: seq<RejectedStep>, t: Tail, current: StepId): RunOutcome
    requires t.r.Raised?
  {
    if t.r.missing then RunThrew(ReportMissing(o, t.w, current))
    else
      var t1 := DoLedger(o, Tail(PublishIgnored(o, t.w, FailedEnvelope(current)), true, t.proposal, Quiet), 1);
      var t2 := if t1.r.Quiet? then DoPr(o, ids, accepted, rejected, t1, 1) else t1;
      Returned(t2.w, RunResult(accepted, rejected, t2.proposal, true))
  }

  function Finish(o: Oracle, ids: seq<string>, p: Progress): RunOutcome {
    var t1 := DoLedger(o, Tail(p.w, p.degraded, None, Quiet), 0);
    if t1.r.Raised? then LastResort(o, ids, p.accepted, p.rejected, t1, StepId.Ledger) else
    var t2 := DoPr(o, ids, p.accepted, p.rejected, t1, 0);
    if t2.r.Raised? then LastResort(o, ids, p.accepted, p.rejected, t2, StepId.Pr)
    else Returned(t2.w, RunResult(p.accepted, p.rejected, t2.proposal, t2.degraded))
  }

  const NO_BASELINE := "baseline:failed"

  const Fresh := World([], 0, [])

  datatype Prelude = Stopped(out: RunOutcome) | Ready(w: World, degraded: bool, parentTag: string)

  /** Everything before the step loop. */
  function Prepare(o: Oracle, valid: bool, title: string, cap: int): Prelude {
    var f0 := OpenTicket(o, Fresh, valid);
    if f0.Crash? then Stopped(RunThrew(f0.w))
    else if !valid then Stopped(Returned(f0.w, RunResult([], [], None, true))) else
    var (f1, _) := AskPhase(o, f0.w, f0.degraded, StepId.Grounding, o.grounding, Done);
    if f1.Crash? then Stopped(RunThrew(f1.w)) else
    var (f2, ok) := AskPhase(o, f1.w, f1.degraded, StepId.Baseline, o.baseline, Failed);
    if f2.Crash? then Stopped(RunThrew(f2.w)) else
    var f3 := PackContext(o, f2.w, f2.degraded);
    if f3.Crash? then Stopped(RunThrew(f3.w)) else
    var f4 := MakePlan(o, f3.w, f3.degraded, PlanSteps(o, title, cap));
    if f4.Crash? then Stopped(RunThrew(f4.w))
    else Ready(f4.w, f4.degraded, if ok then o.baselineTag else NO_BASELINE)
  }

  function RunTicket(o: Oracle, sha: string -> string, valid: bool, title: string, cap: int): RunOutcome {
    match Prepare(o, valid, title, cap)
    case Stopped(out) => out
    case Ready(w, degraded, parentTag) =>
      var steps := PlanSteps(o, title, cap);
      match StepLoop(o, sha, steps, 0, Progress(w, degraded, [], []), parentTag)
      case LoopCrashed(w1) => RunThrew(w1)
      case LoopDone(p) => Finish(o, StepNames(steps), p)
  }
}
