/** What a run leaves on the event stream: the verdicts of every step, the per-step event
    language, the number of envelopes, and the degraded flag. */
module RunEvents {
  import opened Sequences
  import opened Gate
  import opened StepIds
  import opened Orchestrator
  import opened RunSafety
  import RunInvariant

  // ------------------------------------------------------------------- verdict envelopes

  /** Finished envelopes of the verify and reverify families: what the console reads. */
  predicate IsVerdict(e: Envelope) { (e.id.Verify? || e.id.Reverify?) && e.status != Started }

  function Verdicts(log: seq<Envelope>): seq<Envelope> { Filter(log, IsVerdict) }

  lemma VerdictsAppend(log: seq<Envelope>, e: Envelope)
    ensures Verdicts(log + [e]) == Verdicts(log) + (if IsVerdict(e) then [e] else [])
  {
    FilterAppend(log, [e], IsVerdict);
    assert Filter([e], IsVerdict) == if IsVerdict(e) then [e] else [];
  }

  /** How many of the first `k` publishes were delivered. */
  function Delivered(o: Oracle, k: nat): nat {
    if k == 0 then 0 else Delivered(o, k - 1) + (if o.publish(k - 1).Dropped? then 0 else 1)
  }

  /** Publish `k` delivered `e`: it is the log's entry number `Delivered(o, k)`. */
  ghost predicate Landed(o: Oracle, log: seq<Envelope>, k: nat, e: Envelope) {
    !o.publish(k).Dropped? && Delivered(o, k) < |log| && log[Delivered(o, k)] == e
  }

  /** The log holds exactly the delivered envelopes. */
  ghost predicate Counted(o: Oracle, w: World) { |w.log| == Delivered(o, w.publishes) }

  /** From `w` to `w1` the stream only grew. */
  ghost predicate Grows(o: Oracle, w: World, w1: World) {
    w.log <= w1.log && w.publishes <= w1.publishes && (Counted(o, w) ==> Counted(o, w1))
  }

  lemma PublishVerdicts(o: Oracle, w: World, e: Envelope)
    ensures var (w1, r1) := Publish(o, w, e);
      && Grows(o, w, w1)
      && (Counted(o, w) && !o.publish(w.publishes).Dropped? ==> Landed(o, w1.log, w.publishes, e))
      && w1.publishes == w.publishes + 1 && (r1.Quiet? <==> o.publish(w.publishes).Sent?)
      && (!IsVerdict(e) ==> Verdicts(w1.log) == Verdicts(w.log))
      && (Verdicts(w1.log) == Verdicts(w.log) || (IsVerdict(e) && Verdicts(w1.log) == Verdicts(w.log) + [e]))
      && (IsVerdict(e) && r1.Quiet? ==> Verdicts(w1.log) == Verdicts(w.log) + [e])
      && (Verdicts(w1.log) != Verdicts(w.log) ==> !o.publish(w.publishes).Dropped?)
  {
    VerdictsAppend(w.log, e);
  }

  /** The verdict envelope an attempt produces from the sandbox's answer: the facts of the test run and
      whether it is a green build of this diff, or a degraded one when the answer was lost. */
  ghost predicate FromSandbox(o: Oracle, sha: string -> string, n: nat, second: bool, e: Envelope) {
    && Attempted(o, n, second).Some?
    && e.id == (if second then Reverify(n) else Verify(n))
    && var d := Attempted(o, n, second).value;
       match o.branch(n, second).run
       case None => e.status == Failed && e.degraded && e.payload == VerifyPayload(d.stepId, -1, false, false, "")
       case Some(run) =>
         && e.status == Done && !e.degraded
         && e.payload == VerifyPayload(d.stepId, run.exitCode, GreenBuild(sha, d, run), run.rolledBack, run.verifiedSha)
  }

  predicate GateOk(e: Envelope) { e.payload.VerifyPayload? && e.payload.gateOk }

  /** Some publish of the first `publishes` delivered `e`, and it raised no error if and only if
      `calm`. */
  ghost predicate LandedBy(o: Oracle, w: World, e: Envelope, calm: bool) {
    exists k :: 0 <= k < w.publishes && Landed(o, w.log, k, e) && (o.publish(k).Sent? <==> calm)
  }

  /** A step whose last verdict is green was accepted exactly when the publish that delivered
      this verdict raised no error. */
  ghost predicate Told(o: Oracle, w: World, vs: seq<Envelope>, accepted: bool) {
    vs != [] && GateOk(vs[|vs| - 1]) ==> LandedBy(o, w, vs[|vs| - 1], accepted)
  }

  /** The verdicts one step leaves: at most two, the second only after a red first; an accepted
      step's last one is green. */
  ghost predicate VerdictWord(o: Oracle, sha: string -> string, n: nat, vs: seq<Envelope>, accepted: bool) {
    && |vs| <= 2
    && (|vs| >= 1 ==> FromSandbox(o, sha, n, false, vs[0]))
    && (|vs| == 2 ==> !GateOk(vs[0]) && FromSandbox(o, sha, n, true, vs[1]))
    && (accepted ==> vs != [] && GateOk(vs[|vs| - 1]))
  }

  lemma VerifyVerdicts(o: Oracle, sha: string -> string, w: World, n: nat, second: bool, d: Candidate, parentTag: string)
    returns (vs: seq<Envelope>)
    requires Attempted(o, n, second) == Some(d) && Counted(o, w)
    ensures var (w1, v) := VerifyDiff(o, sha, w, n, second, d, parentTag);
      && Counted(o, w1)
      && Verdicts(w1.log) == Verdicts(w.log) + vs
      && |vs| <= 1
      && (|vs| == 1 ==> FromSandbox(o, sha, n, second, vs[0]))
      && (v.Verified? ==> |vs| == 1 && (GateOk(vs[0]) <==> v.ok) && (v.ok ==> v.run.Some?))
      && (vs != [] ==> LandedBy(o, w1, vs[0], v.Verified?))
  {
    hide Publish;
    hide Verdicts;
    hide GateOk;
    hide Landed;
    GatesAgree(o, sha, n, second, d);
    vs := [];
    var id := VerifyId(n, second);
    PublishVerdicts(o, w, Begin(id));
    var (w1, r1) := Publish(o, w, Begin(id));
    if r1.Quiet? {
      var reply := o.branch(n, second);
      var w2 := Ask(w1, Branch(n, d, parentTag, reply));
      var e := match reply.run
        case None => DegradedVerify(id, d)
        case Some(run) => VerdictEnvelope(sha, id, d, run);
      PublishVerdicts(o, w2, e);
      if Verdicts(Publish(o, w2, e).0.log) != Verdicts(w2.log) {
        vs := [e];
      }
    }
  }

  lemma GatesAgree(o: Oracle, sha: string -> string, n: nat, second: bool, d: Candidate)
    ensures var id := VerifyId(n, second);
      && !GateOk(DegradedVerify(id, d))
      && (forall run :: GateOk(VerdictEnvelope(sha, id, d, run)) <==> IsMergeable(sha, d, run).Green?)
      && forall run :: IsMergeable(sha, d, run).Green? <==> GreenBuild(sha, d, run)
  {
    forall run
      ensures IsMergeable(sha, d, run).Green? <==> GreenBuild(sha, d, run)
    {
      GateExact(sha, d, run);
    }
  }

  lemma RedraftVerdicts(o: Oracle, sha: string -> string, w: World, n: nat, s: PlanStep, parentTag: string,
                        first: Candidate, firstRun: SandboxRun, degraded: bool) returns (vs: seq<Envelope>)
    requires Counted(o, w)
    ensures var (w1, out) := RedraftOnce(o, sha, w, n, s, parentTag, first, firstRun, degraded);
      && Counted(o, w1)
      && Verdicts(w1.log) == Verdicts(w.log) + vs
      && |vs| <= 1
      && (|vs| == 1 ==> FromSandbox(o, sha, n, true, vs[0]))
      && (Accepts(out) ==> vs != [] && GateOk(vs[0]))
      && Told(o, w1, vs, Accepts(out))
  {
    hide VerifyDiff;
    hide Publish;
    hide Verdicts;
    hide FromSandbox;
    hide Landed;
    vs := [];
    var w1 := Ask(w, Rollback(n, firstRun.branchTag, parentTag, o.rollbackReaches(n, false)));
    PublishVerdicts(o, w1, Begin(Redraft(n)));
    var (w2, r2) := Publish(o, w1, Begin(Redraft(n)));
    var reply := o.redraft(n);
    if r2.Quiet? && !reply.RenderFails? {
      var w3 := Ask(w2, Llm(n, true));
      match reply {
        case DraftDegraded(_) => PublishVerdicts(o, w3, LostDraft(Redraft(n), s));
        case Unparsed => PublishVerdicts(o, w3, UnparsedDraft(Redraft(n)));
        case Drafted(d) =>
          PublishVerdicts(o, w3, DraftEnvelope(sha, Redraft(n), s, d, degraded));
          var (w4, r4) := Publish(o, w3, DraftEnvelope(sha, Redraft(n), s, d, degraded));
          if r4.Quiet? {
            vs := VerifyVerdicts(o, sha, w4, n, true, d, parentTag);
            var (_, v) := VerifyDiff(o, sha, w4, n, true, d, parentTag);
            assert v.Verified? || v.VerifyThrew?;
          }
      }
    }
  }

  lemma DraftVerdicts(o: Oracle, sha: string -> string, w: World, n: nat, s: PlanStep, parentTag: string,
                      d: Candidate, degraded: bool) returns (vs: seq<Envelope>)
    requires Attempted(o, n, false) == Some(d) && Counted(o, w)
    ensures var (w1, out) := VerifyDraft(o, sha, w, n, s, parentTag, d, degraded);
      && Verdicts(w1.log) == Verdicts(w.log) + vs
      && VerdictWord(o, sha, n, vs, Accepts(out)) && Counted(o, w1) && Told(o, w1, vs, Accepts(out))
  {
    hide VerifyDiff;
    hide Publish;
    hide Verdicts;
    hide FromSandbox;
    hide RedraftOnce;
    hide Landed;
    vs := [];
    PublishVerdicts(o, w, DraftEnvelope(sha, Draft(n), s, d, degraded));
    var (w1, r1) := Publish(o, w, DraftEnvelope(sha, Draft(n), s, d, degraded));
    if r1.Quiet? {
      vs := VerifyVerdicts(o, sha, w1, n, false, d, parentTag);
      var (w2, v) := VerifyDiff(o, sha, w1, n, false, d, parentTag);
      if v.Verified? && v.run.Some? && !v.ok {
        var more := RedraftVerdicts(o, sha, w2, n, s, parentTag, d, v.run.value, degraded);
        assert Verdicts(w.log) + vs + more == Verdicts(w.log) + (vs + more);
        vs := vs + more;
      }
    }
  }

  lemma StepVerdicts(o: Oracle, sha: string -> string, w: World, n: nat, s: PlanStep, parentTag: string)
    returns (vs: seq<Envelope>)
    requires Counted(o, w)
    ensures var (w1, out) := RunOneStep(o, sha, w, n, s, parentTag);
      && Verdicts(w1.log) == Verdicts(w.log) + vs
      && VerdictWord(o, sha, n, vs, Accepts(out)) && Told(o, w1, vs, Accepts(out))
  {
    hide Publish;
    hide Verdicts;
    hide FromSandbox;
    hide VerifyDraft;
    hide LandedBy;
    vs := [];
    PublishVerdicts(o, w, Begin(Draft(n)));
    var (w1, r1) := Publish(o, w, Begin(Draft(n)));
    if r1.Quiet? && !o.draft(n).RenderFails? {
      var w2 := Ask(w1, Llm(n, false));
      match o.draft(n) {
        case DraftDegraded(salvaged) =>
          if salvaged.None? {
            PublishVerdicts(o, w2, LostDraft(Draft(n), s));
          } else {
            vs := DraftVerdicts(o, sha, w2, n, s, parentTag, salvaged.value, true);
          }
        case Unparsed => PublishVerdicts(o, w2, UnparsedDraft(Draft(n)));
        case Drafted(d) => vs := DraftVerdicts(o, sha, w2, n, s, parentTag, d, false);
      }
    }
  }

  // ------------------------------------------------------------------- verdicts of a whole run

  /** The log read step by step: `mask` says which steps were accepted, `words[n]` lists the
      verdicts of step `n`, and together they are all the verdicts of the log. */
  ghost predicate History(o: Oracle, sha: string -> string, steps: seq<PlanStep>, mask: seq<bool>,
                          words: seq<seq<Envelope>>, accepted: seq<AcceptedStep>, rejected: seq<RejectedStep>, w: World)
  {
    && Split(steps, mask, accepted, rejected)
    && Worded(o, sha, words, mask)
    && |words| == |steps|
    && Verdicts(w.log) == Flatten(words)
    && Counted(o, w)
    && AllTold(o, w, words, mask)
  }

  ghost predicate Worded(o: Oracle, sha: string -> string, words: seq<seq<Envelope>>, mask: seq<bool>) {
    |words| == |mask| && forall n :: 0 <= n < |words| ==> VerdictWord(o, sha, n, words[n], mask[n])
  }

  ghost predicate AllTold(o: Oracle, w: World, words: seq<seq<Envelope>>, mask: seq<bool>) {
    |words| == |mask| && forall n :: 0 <= n < |words| ==> Told(o, w, words[n], mask[n])
  }

  /** What landed stays where it landed. */
  lemma ToldLater(o: Oracle, w: World, w1: World, words: seq<seq<Envelope>>, mask: seq<bool>)
    requires AllTold(o, w, words, mask) && Grows(o, w, w1)
    ensures AllTold(o, w1, words, mask)
  {
    hide GateOk;
    hide Delivered;
    forall n | 0 <= n < |words| && words[n] != [] && GateOk(words[n][|words[n]| - 1])
      ensures LandedBy(o, w1, words[n][|words[n]| - 1], mask[n])
    {
      var e := words[n][|words[n]| - 1];
      assert Told(o, w, words[n], mask[n]);
      var k :| 0 <= k < w.publishes && Landed(o, w.log, k, e) && (o.publish(k).Sent? <==> mask[n]);
      assert Landed(o, w1.log, k, e);
    }
  }

  function Silent(n: nat): seq<seq<Envelope>> { if n == 0 then [] else Silent(n - 1) + [[]] }

  lemma {:induction false} SilentFlat(words: seq<seq<Envelope>>, n: nat)
    ensures |Silent(n)| == n && (forall k :: 0 <= k < n ==> Silent(n)[k] == [])
    ensures Flatten(words + Silent(n)) == Flatten(words)
  {
    hide Flatten;
    if n == 0 {
      assert words + [] == words;
    } else {
      SilentFlat(words, n - 1);
      FlattenAppend(words + Silent(n - 1), []);
      assert Flatten(words + Silent(n - 1)) + [] == Flatten(words + Silent(n - 1));
      assert words + Silent(n) == words + Silent(n - 1) + [[]];
    }
  }

  lemma {:induction false} NeverNever(n: nat)
    ensures |Never(n)| == n && forall k :: 0 <= k < n ==> !Never(n)[k]
  {
    if n > 0 {
      NeverNever(n - 1);
    }
  }

  lemma StepGrows(o: Oracle, sha: string -> string, w: World, n: nat, s: PlanStep, parentTag: string)
    ensures Grows(o, w, RunOneStep(o, sha, w, n, s, parentTag).0)
  {
    hide RunOneStep;
    AnyKeeps(o, w);
    RunInvariant.StepAll(o, sha, w, n, s, parentTag, e => true, Since(o, w));
  }

  ghost function Since(o: Oracle, w: World): RunInvariant.Invariant {
    (log: seq<Envelope>, k: nat) => Grows(o, w, World(log, k, []))
  }

  lemma AnyKeeps(o: Oracle, w: World)
    ensures RunInvariant.Keeps(o, e => true, Since(o, w))
  {
    forall v: World, e: Envelope | Since(o, w)(v.log, v.publishes)
      ensures Since(o, w)(Publish(o, v, e).0.log, Publish(o, v, e).0.publishes)
    {
      PublishVerdicts(o, v, e);
    }
  }

  /** Since `w` the stream grew by envelopes that are no verdicts. */
  ghost function QuietSince(o: Oracle, w: World): RunInvariant.Invariant {
    (log: seq<Envelope>, k: nat) => Grows(o, w, World(log, k, [])) && Verdicts(log) == Verdicts(w.log)
  }

  predicate NoVerdict(e: Envelope) { !IsVerdict(e) }

  lemma QuietKeeps(o: Oracle, w: World)
    ensures RunInvariant.Keeps(o, NoVerdict, QuietSince(o, w))
  {
    forall v: World, e: Envelope | QuietSince(o, w)(v.log, v.publishes) && NoVerdict(e)
      ensures QuietSince(o, w)(Publish(o, v, e).0.log, Publish(o, v, e).0.publishes)
    {
      PublishVerdicts(o, v, e);
    }
  }

  lemma WordedAdd(o: Oracle, sha: string -> string, w: World, words: seq<seq<Envelope>>, mask: seq<bool>,
                  vs: seq<Envelope>, accepted: bool)
    requires Worded(o, sha, words, mask) && AllTold(o, w, words, mask)
    requires VerdictWord(o, sha, |words|, vs, accepted) && Told(o, w, vs, accepted)
    ensures Worded(o, sha, words + [vs], mask + [accepted]) && AllTold(o, w, words + [vs], mask + [accepted])
  {
    hide VerdictWord;
    hide Told;
  }

  /** Recording an outcome adds no verdict. */
  lemma RecordQuiet(o: Oracle, p: Progress, n: nat, s: PlanStep, w: World, out: StepOutcome)
    ensures var next := Record(o, p, n, s, w, out);
      next.LoopDone? ==> Grows(o, w, next.p.w) && Verdicts(next.p.w.log) == Verdicts(w.log)
  {
    PublishVerdicts(o, w, FailedEnvelope(Draft(n)));
    hide Publish;
    hide Verdicts;
    hide Delivered;
  }

  lemma RecordHistory(o: Oracle, sha: string -> string, steps: seq<PlanStep>, i: nat, p: Progress, w: World,
                      out: StepOutcome, mask: seq<bool>, words: seq<seq<Envelope>>, vs: seq<Envelope>)
    requires i < |steps| && History(o, sha, steps[..i], mask, words, p.accepted, p.rejected, p.w)
    requires Verdicts(w.log) == Verdicts(p.w.log) + vs && Grows(o, p.w, w)
    requires VerdictWord(o, sha, i, vs, Accepts(out)) && Told(o, w, vs, Accepts(out))
    ensures var next := Record(o, p, i, steps[i], w, out);
      next.LoopDone? ==>
        History(o, sha, steps[..i + 1], mask + [Accepts(out)], words + [vs], next.p.accepted, next.p.rejected, next.p.w)
  {
    hide Record;
    hide VerdictWord;
    hide Split;
    hide Verdicts;
    hide AllTold;
    hide Worded;
    hide Told;
    hide Accepts;
    var next := Record(o, p, i, steps[i], w, out);
    if next.LoopDone? {
      FlattenAppend(words, vs);
      RecordSplits(o, steps, i, p, w, out, mask);
      RecordQuiet(o, p, i, steps[i], w, out);
      ToldLater(o, p.w, w, words, mask);
      WordedAdd(o, sha, w, words, mask, vs, Accepts(out));
      ToldLater(o, w, next.p.w, words + [vs], mask + [Accepts(out)]);
      hide Counted;
    }
  }

  lemma {:induction false} LoopHistory(o: Oracle, sha: string -> string, steps: seq<PlanStep>, i: nat, p: Progress,
                                       parentTag: string, mask0: seq<bool>, words0: seq<seq<Envelope>>)
    returns (mask: seq<bool>, words: seq<seq<Envelope>>)
    requires i <= |steps| && History(o, sha, steps[..i], mask0, words0, p.accepted, p.rejected, p.w)
    ensures var loop := StepLoop(o, sha, steps, i, p, parentTag);
      loop.LoopDone? ==> History(o, sha, steps, mask, words, loop.p.accepted, loop.p.rejected, loop.p.w)
    decreases |steps| - i
  {
    hide RunOneStep;
    hide Record;
    hide History;
    HistoryCounted(o, sha, steps[..i], mask0, words0, p.accepted, p.rejected, p.w);
    mask, words := mask0, words0;
    if i == |steps| {
      assert steps[..i] == steps;
    } else if o.overBudget(i) {
      StopHistory(o, sha, steps, i, p, mask0, words0);
      mask, words := mask0 + Never(|steps| - i), words0 + Silent(|steps| - i);
    } else {
      var (w, out) := RunOneStep(o, sha, p.w, i, steps[i], parentTag);
      var vs := StepVerdicts(o, sha, p.w, i, steps[i], parentTag);
      StepGrows(o, sha, p.w, i, steps[i], parentTag);
      RecordHistory(o, sha, steps, i, p, w, out, mask0, words0, vs);
      var next := Record(o, p, i, steps[i], w, out);
      if next.LoopDone? {
        mask, words := LoopHistory(o, sha, steps, i + 1, next.p, parentTag, mask0 + [Accepts(out)], words0 + [vs]);
      }
    }
  }

  lemma HistoryCounted(o: Oracle, sha: string -> string, steps: seq<PlanStep>, mask: seq<bool>, words: seq<seq<Envelope>>,
                       accepted: seq<AcceptedStep>, rejected: seq<RejectedStep>, w: World)
    requires History(o, sha, steps, mask, words, accepted, rejected, w)
    ensures Counted(o, w)
  {
  }

  lemma StopHistory(o: Oracle, sha: string -> string, steps: seq<PlanStep>, i: nat, p: Progress,
                    mask: seq<bool>, words: seq<seq<Envelope>>)
    requires i < |steps| && History(o, sha, steps[..i], mask, words, p.accepted, p.rejected, p.w)
    ensures History(o, sha, steps, mask + Never(|steps| - i), words + Silent(|steps| - i), p.accepted,
              p.rejected + Map(steps[i..], BudgetReject),
              PublishIgnored(o, p.w, Envelope(Draft(i), Failed, true, Reason("budget-exhausted"))))
  {
    var w := PublishIgnored(o, p.w, Envelope(Draft(i), Failed, true, Reason("budget-exhausted")));
    StopIsQuiet(o, p.w, i);
    hide *;
    SameHistory(o, sha, steps[..i], mask, words, p.accepted, p.rejected, p.w, w);
    SilentHistory(o, sha, steps, i, mask, words, p.accepted, p.rejected, w);
  }

  lemma StopIsQuiet(o: Oracle, w: World, i: nat)
    ensures var w1 := PublishIgnored(o, w, Envelope(Draft(i), Failed, true, Reason("budget-exhausted")));
      Grows(o, w, w1) && Verdicts(w1.log) == Verdicts(w.log)
  {
    PublishVerdicts(o, w, Envelope(Draft(i), Failed, true, Reason("budget-exhausted")));
    hide Publish;
    hide Verdicts;
    hide Delivered;
  }

  /** Steps that are not entered leave no verdict and are rejected. */
  lemma SilentHistory(o: Oracle, sha: string -> string, steps: seq<PlanStep>, i: nat, mask: seq<bool>, words: seq<seq<Envelope>>,
                      accepted: seq<AcceptedStep>, rejected: seq<RejectedStep>, w: World)
    requires i < |steps| && History(o, sha, steps[..i], mask, words, accepted, rejected, w)
    ensures History(o, sha, steps, mask + Never(|steps| - i), words + Silent(|steps| - i), accepted,
              rejected + Map(steps[i..], BudgetReject), w)
  {
    hide Split;
    hide Flatten;
    hide Verdicts;
    hide Map;
    hide Never;
    hide Silent;
    hide Worded;
    hide AllTold;
    hide Delivered;
    SplitRejectAll(steps[..i], mask, accepted, rejected, steps[i..]);
    assert steps[..i] + steps[i..] == steps;
    SilentFlat(words, |steps| - i);
    SilentWords(o, sha, w, words, mask, |steps| - i);
  }

  lemma SilentWords(o: Oracle, sha: string -> string, w: World, words: seq<seq<Envelope>>, mask: seq<bool>, n: nat)
    requires Worded(o, sha, words, mask) && AllTold(o, w, words, mask)
    ensures Worded(o, sha, words + Silent(n), mask + Never(n)) && AllTold(o, w, words + Silent(n), mask + Never(n))
  {
    SilentFlat(words, n);
    NeverNever(n);
    hide FromSandbox;
    hide LandedBy;
    hide Silent;
    hide Never;
  }

  lemma SplitLength(steps: seq<PlanStep>, mask: seq<bool>, accepted: seq<AcceptedStep>, rejected: seq<RejectedStep>)
    requires Split(steps, mask, accepted, rejected)
    ensures |mask| == |steps|
  {
  }

  /** Every returned run with a valid ticket has a history: its verdict envelopes are, step by
      step in plan order, the verdict words of the steps it accepted and rejected, and a green
      last verdict belongs to an accepted step exactly when its publish raised no error. */
  lemma RunHistory(o: Oracle, sha: string -> string, title: string, cap: int)
    returns (mask: seq<bool>, words: seq<seq<Envelope>>)
    ensures var out := RunTicket(o, sha, true, title, cap);
      out.Returned? ==>
        History(o, sha, PlanSteps(o, title, cap), mask, words, out.result.accepted, out.result.rejected, out.w)
  {
    hide Prepare;
    hide Finish;
    hide History;
    mask, words := [], [];
    var pre := Prepare(o, true, title, cap);
    PrepareInvalid(o, title, cap);
    if pre.Ready? {
      var steps := PlanSteps(o, title, cap);
      var p0 := Progress(pre.w, pre.degraded, [], []);
      QuietKeeps(o, Fresh);
      RunInvariant.PrepareAll(o, title, cap, [], NoVerdict, QuietSince(o, Fresh));
      EmptyHistory(o, sha, steps, p0);
      mask, words := LoopHistory(o, sha, steps, 0, p0, pre.parentTag, [], []);
      var loop := StepLoop(o, sha, steps, 0, p0, pre.parentTag);
      if loop.LoopDone? {
        FinishKeeps(o, StepNames(steps), loop.p);
        QuietKeeps(o, loop.p.w);
        RunInvariant.FinishAll(o, StepNames(steps), loop.p, NoVerdict, QuietSince(o, loop.p.w));
        SameHistory(o, sha, steps, mask, words, loop.p.accepted, loop.p.rejected, loop.p.w,
          Finish(o, StepNames(steps), loop.p).w);
      }
    }
  }

  lemma EmptyHistory(o: Oracle, sha: string -> string, steps: seq<PlanStep>, p: Progress)
    requires p.accepted == [] && p.rejected == [] && Verdicts(p.w.log) == [] && Counted(o, p.w)
    ensures History(o, sha, steps[..0], [], [], p.accepted, p.rejected, p.w)
  {
  }

  lemma SameHistory(o: Oracle, sha: string -> string, steps: seq<PlanStep>, mask: seq<bool>, words: seq<seq<Envelope>>,
                    accepted: seq<AcceptedStep>, rejected: seq<RejectedStep>, w: World, w1: World)
    requires History(o, sha, steps, mask, words, accepted, rejected, w) && Verdicts(w.log) == Verdicts(w1.log) && Grows(o, w, w1)
    ensures History(o, sha, steps, mask, words, accepted, rejected, w1)
  {
    ToldLater(o, w, w1, words, mask);
    hide AllTold;
  }
}
