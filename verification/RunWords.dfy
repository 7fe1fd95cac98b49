/** The language of the event stream when every publish is delivered: each step writes one
    word of a small fixed language, and the whole log has a computable length. */
module RunWords {
  import opened Sequences
  import opened Gate
  import opened StepIds
  import opened Orchestrator
  import opened RunDegraded
  import RunEvents
  import RunSafety

  /** The only order of step ids in a step's word: each family starts and then finishes. */
  function WordId(n: nat, k: nat): StepId {
    if k < 2 then Draft(n) else if k < 4 then Verify(n) else if k < 6 then Redraft(n) else Reverify(n)
  }

  predicate Finished(e: Envelope) { e.status == Done }

  /** The bare envelope that starts a phase or an attempt. */
  function Start(id: StepId): Envelope { Envelope(id, Started, false, NoPayload) }

  /** The envelope that ends the drafting of an attempt: the candidate's file and digest, marked as
      degraded when it, or for a re-draft the first one, was salvaged from a degraded answer; or the
      reason why there is no candidate. */
  ghost predicate DraftTold(o: Oracle, sha: string -> string, n: nat, second: bool, s: PlanStep, e: Envelope) {
    var id := if second then Redraft(n) else Draft(n);
    match if second then o.redraft(n) else o.draft(n)
    case Drafted(d) =>
      e == Envelope(id, Done, second && o.draft(n).DraftDegraded?, DraftPayload(s.id, d.file, sha(d.unifiedDiff)))
    case DraftDegraded(salvaged) =>
      e == if !second && salvaged.Some?
           then Envelope(id, Done, true, DraftPayload(s.id, salvaged.value.file, sha(salvaged.value.unifiedDiff)))
           else Envelope(id, Failed, true, DraftPayload(s.id, s.file, ""))
    case Unparsed => e == Envelope(id, Failed, false, Reason("parse-failed"))
    case RenderFails(_) => false
  }

  /** What the finished envelopes of a step's word say. */
  ghost predicate Tells(o: Oracle, sha: string -> string, n: nat, s: PlanStep, word: seq<Envelope>) {
    && (|word| >= 2 ==> DraftTold(o, sha, n, false, s, word[1]))
    && (|word| >= 4 ==> RunEvents.FromSandbox(o, sha, n, false, word[3]))
    && (|word| >= 6 ==> DraftTold(o, sha, n, true, s, word[5]))
    && (|word| >= 8 ==> RunEvents.FromSandbox(o, sha, n, true, word[7]))
  }

  /** The word of one step. Starts and finishes alternate, so a re-draft happens at most once;
      it follows a finished verification whose gate refused, a re-verification follows a
      finished re-draft, and nothing follows a green verdict. */
  ghost predicate EventWord(n: nat, word: seq<Envelope>) {
    && |word| in {1, 2, 4, 5, 6, 8}
    && (forall k :: 0 <= k < |word| ==> word[k].id == WordId(n, k) && (word[k].status == Started <==> k % 2 == 0))
    && (forall k :: 0 <= k < |word| && k % 2 == 0 ==> word[k] == Start(WordId(n, k)))
    && (|word| > 2 ==> Finished(word[1]))
    && (|word| > 4 ==> Finished(word[3]) && !RunEvents.GateOk(word[3]))
    && (|word| > 6 ==> Finished(word[5]))
  }

  /** Length of a step's word, read off the answers it gets. */
  function WordLength(o: Oracle, sha: string -> string, n: nat): nat {
    if o.draft(n).RenderFails? then 1
    else if Attempted(o, n, false).None? then 2
    else if o.branch(n, false).run.None? then 4
    else if IsMergeable(sha, Attempted(o, n, false).value, o.branch(n, false).run.value).Green? then 4
    else if o.redraft(n).RenderFails? then 5
    else if Attempted(o, n, true).None? then 6
    else 8
  }

  /** A word, and what the step's outcome says about it. */
  ghost predicate WordOf(o: Oracle, sha: string -> string, n: nat, s: PlanStep, word: seq<Envelope>, out: StepOutcome) {
    && EventWord(n, word) && Tells(o, sha, n, s, word)
    && |word| == WordLength(o, sha, n)
    && (out.StepThrew? <==> |word| == 1 || |word| == 5)
    && (RunSafety.Accepts(out) <==> (|word| == 4 || |word| == 8) && RunEvents.GateOk(word[|word| - 1]))
  }

  lemma VerifyWrites(o: Oracle, sha: string -> string, w: World, n: nat, second: bool, d: Candidate, parentTag: string)
    returns (e: Envelope)
    requires AllSent(o) && Attempted(o, n, second) == Some(d)
    ensures var (w1, v) := VerifyDiff(o, sha, w, n, second, d, parentTag);
      && RunEvents.FromSandbox(o, sha, n, second, e)
      && w1.log == w.log + [Begin(VerifyId(n, second)), e]
      && e.id == VerifyId(n, second) && e.status != Started
      && v.Verified? && v.run == o.branch(n, second).run
      && (Finished(e) <==> v.run.Some?)
      && (RunEvents.GateOk(e) <==> v.ok)
      && (v.ok <==> v.run.Some? && IsMergeable(sha, d, v.run.value).Green?)
  {
    RunEvents.GatesAgree(o, sha, n, second, d);
    e := match o.branch(n, second).run
      case None => DegradedVerify(VerifyId(n, second), d)
      case Some(run) => VerdictEnvelope(sha, VerifyId(n, second), d, run);
  }

  lemma RedraftWrites(o: Oracle, sha: string -> string, w: World, n: nat, s: PlanStep, parentTag: string,
                      first: Candidate, firstRun: SandboxRun, degraded: bool) returns (word: seq<Envelope>)
    requires AllSent(o) && degraded == o.draft(n).DraftDegraded?
    ensures var (w1, out) := RedraftOnce(o, sha, w, n, s, parentTag, first, firstRun, degraded);
      && (|word| >= 2 ==> DraftTold(o, sha, n, true, s, word[1]))
      && (|word| == 4 ==> RunEvents.FromSandbox(o, sha, n, true, word[3]))
      && (forall k :: 0 <= k < |word| && k % 2 == 0 ==> word[k] == Start(WordId(n, k + 4)))
      && w1.log == w.log + word
      && |word| == (if o.redraft(n).RenderFails? then 1 else if Attempted(o, n, true).None? then 2 else 4)
      && (forall k :: 0 <= k < |word| ==> word[k].id == WordId(n, k + 4) && (word[k].status == Started <==> k % 2 == 0))
      && (|word| > 2 ==> Finished(word[1]))
      && (out.StepThrew? <==> |word| == 1)
      && (RunSafety.Accepts(out) <==> |word| == 4 && RunEvents.GateOk(word[3]))
  {
    SentFacts(o);
    hide Publish;
    hide AllSent;
    hide VerifyDiff;
    word := [Begin(Redraft(n))];
    var w1 := Ask(w, Rollback(n, firstRun.branchTag, parentTag, o.rollbackReaches(n, false)));
    var w2 := Publish(o, w1, Begin(Redraft(n))).0;
    match o.redraft(n) {
      case RenderFails(_) =>
      case DraftDegraded(_) => word := word + [LostDraft(Redraft(n), s)];
      case Unparsed => word := word + [UnparsedDraft(Redraft(n))];
      case Drafted(d) =>
        var e1 := DraftEnvelope(sha, Redraft(n), s, d, degraded);
        var w3 := Publish(o, Ask(w2, Llm(n, true)), e1).0;
        var e := VerifyWrites(o, sha, w3, n, true, d, parentTag);
        word := [Begin(Redraft(n)), e1, Begin(Reverify(n)), e];
        assert w.log + [Begin(Redraft(n))] + [e1] + [Begin(Reverify(n)), e] == w.log + word;
    }
  }

  lemma DraftWrites(o: Oracle, sha: string -> string, w: World, n: nat, s: PlanStep, parentTag: string,
                    d: Candidate, degraded: bool) returns (word: seq<Envelope>)
    requires AllSent(o) && Attempted(o, n, false) == Some(d) && degraded == o.draft(n).DraftDegraded?
    ensures var (w1, out) := VerifyDraft(o, sha, w, n, s, parentTag, d, degraded);
      w1.log == w.log + word && WordOf(o, sha, n, s, [Begin(Draft(n))] + word, out)
  {
    hide Publish;
    hide AllSent;
    hide VerifyDiff;
    hide RedraftOnce;
    hide EventWord;
    hide IsMergeable;
    SentFacts(o);
    var e1 := DraftEnvelope(sha, Draft(n), s, d, degraded);
    var w1 := Publish(o, w, e1).0;
    var e3 := VerifyWrites(o, sha, w1, n, false, d, parentTag);
    var (w2, v) := VerifyDiff(o, sha, w1, n, false, d, parentTag);
    var base := [e1, Begin(Verify(n)), e3];
    assert w.log + [e1] + [Begin(Verify(n)), e3] == w.log + base;
    HalfWord(n, e1, e3);
    if v.run.Some? && !v.ok {
      var more := RedraftWrites(o, sha, w2, n, s, parentTag, d, v.run.value, degraded);
      word := base + more;
      assert w.log + base + more == w.log + word;
      JoinWord(n, base, more);
      var full := [Begin(Draft(n))] + word;
      assert |full| == 4 + |more|;
      assert |more| == 4 ==> full[7] == more[3];
    } else {
      word := base;
      assert [Begin(Draft(n))] + word == [Begin(Draft(n)), e1, Begin(Verify(n)), e3];
    }
  }

  lemma HalfWord(n: nat, e1: Envelope, e3: Envelope)
    requires e1.id == Draft(n) && Finished(e1) && e3.id == Verify(n) && e3.status != Started
    ensures EventWord(n, [Begin(Draft(n)), e1, Begin(Verify(n)), e3])
  {
  }

  /** A refused first half followed by the re-draft half is a word. */
  lemma JoinWord(n: nat, base: seq<Envelope>, more: seq<Envelope>)
    requires |base| == 3 && base[0].id == Draft(n) && base[1].id == base[2].id == Verify(n)
    requires Finished(base[0]) && base[1].status == Started && Finished(base[2]) && !RunEvents.GateOk(base[2])
    requires |more| in {1, 2, 4} && (|more| > 2 ==> Finished(more[1]))
    requires forall k :: 0 <= k < |more| ==> more[k].id == WordId(n, k + 4) && (more[k].status == Started <==> k % 2 == 0)
    requires base[1] == Start(Verify(n)) && forall k :: 0 <= k < |more| && k % 2 == 0 ==> more[k] == Start(WordId(n, k + 4))
    ensures EventWord(n, [Begin(Draft(n))] + (base + more))
  {
    var word := [Begin(Draft(n))] + (base + more);
    assert word[1] == base[0] && word[2] == base[1] && word[3] == base[2];
    assert forall k :: 4 <= k < |word| ==> word[k] == more[k - 4];
  }

  lemma ShortWords(n: nat, lost: Envelope, unparsed: Envelope)
    requires lost.id == unparsed.id == Draft(n) && lost.status == unparsed.status == Failed
    ensures EventWord(n, [Begin(Draft(n))])
    ensures EventWord(n, [Begin(Draft(n)), lost]) && EventWord(n, [Begin(Draft(n)), unparsed])
  {
  }

  lemma StepWrites(o: Oracle, sha: string -> string, w: World, n: nat, s: PlanStep, parentTag: string)
    returns (word: seq<Envelope>)
    requires AllSent(o)
    ensures var (w1, out) := RunOneStep(o, sha, w, n, s, parentTag);
      w1.log == w.log + word && WordOf(o, sha, n, s, word, out)
  {
    hide Publish;
    hide AllSent;
    hide VerifyDraft;
    hide EventWord;
    SentFacts(o);
    ShortWords(n, LostDraft(Draft(n), s), UnparsedDraft(Draft(n)));
    word := [Begin(Draft(n))];
    var w1 := Publish(o, w, Begin(Draft(n))).0;
    var w2 := Ask(w1, Llm(n, false));
    match o.draft(n) {
      case RenderFails(_) =>
      case DraftDegraded(salvaged) =>
        if salvaged.None? {
          word := [Begin(Draft(n)), LostDraft(Draft(n), s)];
          assert w.log + word == w.log + [Begin(Draft(n))] + [LostDraft(Draft(n), s)];
        } else {
          var more := DraftWrites(o, sha, w2, n, s, parentTag, salvaged.value, true);
          assert w.log + [Begin(Draft(n))] + more == w.log + ([Begin(Draft(n))] + more);
          word := [Begin(Draft(n))] + more;
        }
      case Unparsed =>
        word := [Begin(Draft(n)), UnparsedDraft(Draft(n))];
        assert w.log + word == w.log + [Begin(Draft(n))] + [UnparsedDraft(Draft(n))];
      case Drafted(d) =>
        var more := DraftWrites(o, sha, w2, n, s, parentTag, d, false);
        assert w.log + [Begin(Draft(n))] + more == w.log + ([Begin(Draft(n))] + more);
        word := [Begin(Draft(n))] + more;
    }
  }

  // ------------------------------------------------------------------- the whole log

  /** What step `n` puts on the log: its word, closed by a failure envelope when the step
      raised, or the single budget envelope. */
  ghost predicate StepTrace(o: Oracle, sha: string -> string, n: nat, s: PlanStep, seg: seq<Envelope>) {
    if o.overBudget(n) then seg == [Envelope(Draft(n), Failed, true, Reason("budget-exhausted"))]
    else exists word ::
      EventWord(n, word) && |word| == WordLength(o, sha, n) && Tells(o, sha, n, s, word) && seg == Closed(n, word)
  }

  function Closed(n: nat, word: seq<Envelope>): seq<Envelope> {
    word + (if |word| == 1 || |word| == 5 then [Envelope(Draft(n), Failed, true, Reason("error"))] else [])
  }

  function TraceLength(o: Oracle, sha: string -> string, n: nat): nat {
    if o.overBudget(n) then 1
    else
      var len := WordLength(o, sha, n);
      if len == 1 || len == 5 then len + 1 else len
  }

  function TotalLength(o: Oracle, sha: string -> string, k: nat): nat {
    if k == 0 then 0 else TotalLength(o, sha, k - 1) + TraceLength(o, sha, k - 1)
  }

  /** `segs` are the traces of the first steps, in order, none but the last a budget stop. */
  ghost predicate Traces(o: Oracle, sha: string -> string, steps: seq<PlanStep>, segs: seq<seq<Envelope>>) {
    |segs| <= |steps| && forall n :: 0 <= n < |segs| ==> StepTrace(o, sha, n, steps[n], segs[n])
  }

  lemma RecordWrites(o: Oracle, sha: string -> string, p: Progress, n: nat, s: PlanStep, w: World,
                     out: StepOutcome, word: seq<Envelope>)
    requires AllSent(o) && WordOf(o, sha, n, s, word, out) && w.log == p.w.log + word
    ensures var next := Record(o, p, n, s, w, out);
      next.LoopDone? ==> next.p.w.log == p.w.log + Closed(n, word)
  {
    SentFacts(o);
    hide Publish;
    hide AllSent;
    hide EventWord;
    assert p.w.log + word + [FailedEnvelope(Draft(n))] == p.w.log + (word + [FailedEnvelope(Draft(n))]);
  }

  /** `log` is `head` followed by the traces of the first `|segs|` steps; the loop went over
      the whole plan unless the last trace is a budget stop. */
  ghost predicate LogOf(o: Oracle, sha: string -> string, steps: seq<PlanStep>, head: seq<Envelope>,
                        segs: seq<seq<Envelope>>, log: seq<Envelope>)
  {
    && log == head + Flatten(segs)
    && Traces(o, sha, steps, segs)
    && |segs| <= |steps|
    && (forall n :: 0 <= n < |segs| - 1 ==> !o.overBudget(n))
    && (|segs| < |steps| ==> |segs| > 0 && o.overBudget(|segs| - 1))
  }

  lemma {:induction false} LoopWrites(o: Oracle, sha: string -> string, steps: seq<PlanStep>, i: nat, p: Progress,
                                      parentTag: string, head: seq<Envelope>, segs0: seq<seq<Envelope>>)
    returns (segs: seq<seq<Envelope>>)
    requires AllSent(o)
    requires i <= |steps| && |segs0| == i && (forall n :: 0 <= n < i ==> !o.overBudget(n))
    requires Traces(o, sha, steps, segs0) && p.w.log == head + Flatten(segs0)
    ensures var loop := StepLoop(o, sha, steps, i, p, parentTag);
      loop.LoopDone? ==> LogOf(o, sha, steps, head, segs, loop.p.w.log)
    decreases |steps| - i
  {
    hide RunOneStep;
    hide Record;
    hide AllSent;
    hide StepTrace;
    hide Flatten;
    hide Closed;
    hide WordOf;
    segs := segs0;
    if i < |steps| {
      if o.overBudget(i) {
        var e := Envelope(Draft(i), Failed, true, Reason("budget-exhausted"));
        segs := segs0 + [[e]];
        SentFacts(o);
        BudgetTrace(o, sha, i, steps[i]);
        FlattenAppend(segs0, [e]);
        assert p.w.log + [e] == head + Flatten(segs);
      } else {
        var (w, out) := RunOneStep(o, sha, p.w, i, steps[i], parentTag);
        var word := StepWrites(o, sha, p.w, i, steps[i], parentTag);
        RecordWrites(o, sha, p, i, steps[i], w, out, word);
        WordTrace(o, sha, i, steps[i], word, out);
        var next := Record(o, p, i, steps[i], w, out);
        if next.LoopDone? {
          FlattenAppend(segs0, Closed(i, word));
          assert p.w.log + Closed(i, word) == head + Flatten(segs0 + [Closed(i, word)]);
          segs := LoopWrites(o, sha, steps, i + 1, next.p, parentTag, head, segs0 + [Closed(i, word)]);
        }
      }
    }
  }

  lemma BudgetTrace(o: Oracle, sha: string -> string, n: nat, s: PlanStep)
    requires o.overBudget(n)
    ensures StepTrace(o, sha, n, s, [Envelope(Draft(n), Failed, true, Reason("budget-exhausted"))])
  {
  }

  lemma WordTrace(o: Oracle, sha: string -> string, n: nat, s: PlanStep, word: seq<Envelope>, out: StepOutcome)
    requires !o.overBudget(n) && WordOf(o, sha, n, s, word, out)
    ensures StepTrace(o, sha, n, s, Closed(n, word))
  {
    hide EventWord;
  }

  lemma {:induction false} TracesLength(o: Oracle, sha: string -> string, steps: seq<PlanStep>, segs: seq<seq<Envelope>>)
    requires Traces(o, sha, steps, segs)
    ensures |Flatten(segs)| == TotalLength(o, sha, |segs|)
  {
    if segs != [] {
      TracesLength(o, sha, steps, segs[..|segs| - 1]);
      assert StepTrace(o, sha, |segs| - 1, steps[|segs| - 1], segs[|segs| - 1]);
    }
  }

  /** The ten opening entries of the log: intake, grounding, baseline and context packing, and the
      plan, marked as degraded when grounding, baseline or planning was. */
  ghost predicate Opening(o: Oracle, names: seq<string>, log: seq<Envelope>) {
    && |log| >= 10
    && PhaseTold(log, 0, StepId.Intake, Good, Failed)
    && PhaseTold(log, 2, StepId.Grounding, o.grounding, Done)
    && PhaseTold(log, 4, StepId.Baseline, o.baseline, Failed)
    && PhaseTold(log, 6, StepId.ContextPack, Good, Failed)
    && log[8] == Start(Planning)
    && log[9] == Envelope(Planning, Done, o.grounding != Good || o.baseline != Good || !o.planner.Planned?, PlanPayload(names))
  }

  lemma PhaseWrites(o: Oracle, w: World, degraded: bool, id: StepId, reply: PhaseReply, lost: Status)
    requires AllSent(o)
    ensures var f := AskPhase(o, w, degraded, id, reply, lost).0;
      f.Go? ==>
        && |f.w.log| == |w.log| + 2 && w.log <= f.w.log && PhaseTold(f.w.log, |w.log|, id, reply, lost)
        && (f.degraded <==> degraded || reply != Good)
  {
    SentFacts(o);
    hide Publish;
    hide AllSent;
  }

  lemma OtherPhaseWrites(o: Oracle, w: World, degraded: bool, steps: seq<PlanStep>)
    requires AllSent(o)
    ensures var f := OpenTicket(o, w, true);
      f.Go? ==>
        && |f.w.log| == |w.log| + 2 && w.log <= f.w.log && PhaseTold(f.w.log, |w.log|, StepId.Intake, Good, Failed)
        && !f.degraded
    ensures var f := PackContext(o, w, degraded);
      f.Go? ==>
        && |f.w.log| == |w.log| + 2 && w.log <= f.w.log && PhaseTold(f.w.log, |w.log|, StepId.ContextPack, Good, Failed)
        && f.degraded == degraded
    ensures var f := MakePlan(o, w, degraded, steps);
      f.Go? ==>
        && |f.w.log| == |w.log| + 2 && w.log <= f.w.log && f.w.log[|w.log|] == Start(Planning)
        && f.w.log[|w.log| + 1] == Envelope(Planning, Done, degraded || !o.planner.Planned?, PlanPayload(StepNames(steps)))
  {
    SentFacts(o);
    hide Publish;
    hide AllSent;
    hide StepNames;
  }

  lemma PrepareWrites(o: Oracle, title: string, cap: int)
    requires AllSent(o)
    ensures var pre := Prepare(o, true, title, cap);
      pre.Ready? ==> |pre.w.log| == 10 && Opening(o, StepNames(PlanSteps(o, title, cap)), pre.w.log)
  {
    hide OpenTicket;
    hide AskPhase;
    hide PackContext;
    hide MakePlan;
    hide AllSent;
    hide StepNames;
    hide PlanSteps;
    var steps := PlanSteps(o, title, cap);
    OtherPhaseWrites(o, Fresh, false, steps);
    var f0 := OpenTicket(o, Fresh, true);
    if f0.Go? {
      PhaseWrites(o, f0.w, f0.degraded, StepId.Grounding, o.grounding, Done);
      var f1 := AskPhase(o, f0.w, f0.degraded, StepId.Grounding, o.grounding, Done).0;
      if f1.Go? {
        PhaseWrites(o, f1.w, f1.degraded, StepId.Baseline, o.baseline, Failed);
        var f2 := AskPhase(o, f1.w, f1.degraded, StepId.Baseline, o.baseline, Failed).0;
        if f2.Go? {
          OtherPhaseWrites(o, f2.w, f2.degraded, steps);
          var f3 := PackContext(o, f2.w, f2.degraded);
          if f3.Go? {
            OtherPhaseWrites(o, f3.w, f3.degraded, steps);
          }
        }
      }
    }
  }

  lemma LogOfLength(o: Oracle, sha: string -> string, steps: seq<PlanStep>, head: seq<Envelope>,
                    segs: seq<seq<Envelope>>, log: seq<Envelope>)
    requires LogOf(o, sha, steps, head, segs, log)
    ensures |log| == |head| + TotalLength(o, sha, |segs|) && head <= log
  {
    TracesLength(o, sha, steps, segs);
  }

  lemma OpeningStays(o: Oracle, names: seq<string>, log: seq<Envelope>, more: seq<Envelope>)
    requires Opening(o, names, log) && log <= more
    ensures Opening(o, names, more)
  {
  }

  /** The log of a delivered run is ten opening envelopes, the last of them the plan, the traces
      of its steps, and four closing envelopes, the last of them the pull request. */
  lemma LogLanguage(o: Oracle, sha: string -> string, title: string, cap: int) returns (segs: seq<seq<Envelope>>)
    requires AllSent(o)
    ensures var out := RunTicket(o, sha, true, title, cap);
      out.Returned? ==>
        && |out.w.log| == 14 + TotalLength(o, sha, |segs|)
        && Opening(o, StepNames(PlanSteps(o, title, cap)), out.w.log) && Closing(o, out.w.log, out.result)
        && LogOf(o, sha, PlanSteps(o, title, cap), out.w.log[..10], segs, out.w.log[..|out.w.log| - 4])
  {
    hide Prepare;
    hide Finish;
    hide AllSent;
    hide LogOf;
    hide TotalLength;
    hide Opening;
    hide Closing;
    segs := [];
    var pre := Prepare(o, true, title, cap);
    PrepareWrites(o, title, cap);
    RunSafety.PrepareInvalid(o, title, cap);
    if pre.Ready? {
      var steps := PlanSteps(o, title, cap);
      var p0 := Progress(pre.w, pre.degraded, [], []);
      assert pre.w.log == pre.w.log + Flatten([]);
      hide Flatten;
      segs := LoopWrites(o, sha, steps, 0, p0, pre.parentTag, pre.w.log, []);
      var loop := StepLoop(o, sha, steps, 0, p0, pre.parentTag);
      if loop.LoopDone? {
        FinishSays(o, StepNames(steps), loop.p);
        if Finish(o, StepNames(steps), loop.p).Returned? {
          LogParts(o, sha, steps, pre.w.log, segs, loop.p.w.log, Finish(o, StepNames(steps), loop.p).w.log);
        }
      }
    }
    hide StepLoop;
    hide PlanSteps;
    hide StepNames;
  }

  /** Opening, traces and four more entries. */
  lemma LogParts(o: Oracle, sha: string -> string, steps: seq<PlanStep>, head: seq<Envelope>, segs: seq<seq<Envelope>>,
                 before: seq<Envelope>, log: seq<Envelope>)
    requires |head| == 10 && Opening(o, StepNames(steps), head) && LogOf(o, sha, steps, head, segs, before)
    requires before <= log && |log| == |before| + 4
    ensures |log| == 14 + TotalLength(o, sha, |segs|)
    ensures Opening(o, StepNames(steps), log) && LogOf(o, sha, steps, log[..10], segs, log[..|log| - 4])
  {
    LogOfLength(o, sha, steps, head, segs, before);
    hide *;
    assert log[..|log| - 4] == before && log[..10] == head;
    OpeningStays(o, StepNames(steps), head, log);
  }

  // ------------------------------------------------------------------- clean runs

  /** Accepted on the first verification. */
  predicate FirstGreen(o: Oracle, sha: string -> string, n: nat) {
    && Attempted(o, n, false).Some?
    && o.branch(n, false).run.Some?
    && IsMergeable(sha, Attempted(o, n, false).value, o.branch(n, false).run.value).Green?
  }

  /** Red at first, then re-drafted and verified again, whatever the second verdict. */
  predicate Redone(o: Oracle, sha: string -> string, n: nat) {
    && Attempted(o, n, false).Some?
    && o.branch(n, false).run.Some?
    && !FirstGreen(o, sha, n)
    && Attempted(o, n, true).Some?
  }

  function Greens(o: Oracle, sha: string -> string, k: nat): nat {
    if k == 0 then 0 else Greens(o, sha, k - 1) + (if FirstGreen(o, sha, k - 1) then 1 else 0)
  }

  function Redrafts(o: Oracle, sha: string -> string, k: nat): nat {
    if k == 0 then 0 else Redrafts(o, sha, k - 1) + (if Redone(o, sha, k - 1) then 1 else 0)
  }

  lemma {:induction false} CleanLength(o: Oracle, sha: string -> string, k: nat)
    requires forall n :: 0 <= n < k ==> !o.overBudget(n) && (FirstGreen(o, sha, n) || Redone(o, sha, n))
    ensures TotalLength(o, sha, k) == 4 * Greens(o, sha, k) + 8 * Redrafts(o, sha, k)
    ensures Greens(o, sha, k) + Redrafts(o, sha, k) == k
  {
    if k > 0 {
      CleanLength(o, sha, k - 1);
      var n := k - 1;
      assert FirstGreen(o, sha, n) || Redone(o, sha, n);
    }
  }

  /** A clean run with `g` first-try greens and `r` completed re-drafts has exactly
      `14 + 4g + 8r` envelopes. */
  lemma CleanRunLength(o: Oracle, sha: string -> string, title: string, cap: int)
    requires AllSent(o)
    requires forall n :: 0 <= n < |PlanSteps(o, title, cap)| ==>
      !o.overBudget(n) && (FirstGreen(o, sha, n) || Redone(o, sha, n))
    ensures var out := RunTicket(o, sha, true, title, cap);
      var k := |PlanSteps(o, title, cap)|;
      && Greens(o, sha, k) + Redrafts(o, sha, k) == k
      && (out.Returned? ==> |out.w.log| == 14 + 4 * Greens(o, sha, k) + 8 * Redrafts(o, sha, k))
  {
    hide *;
    var segs := LogLanguage(o, sha, title, cap);
    var out := RunTicket(o, sha, true, title, cap);
    if out.Returned? {
      AllTraced(o, sha, PlanSteps(o, title, cap), out.w.log[..10], segs, out.w.log[..|out.w.log| - 4]);
    }
    CleanLength(o, sha, |PlanSteps(o, title, cap)|);
  }

  lemma AllTraced(o: Oracle, sha: string -> string, steps: seq<PlanStep>, head: seq<Envelope>,
                  segs: seq<seq<Envelope>>, log: seq<Envelope>)
    requires LogOf(o, sha, steps, head, segs, log) && forall n :: 0 <= n < |steps| ==> !o.overBudget(n)
    ensures |segs| == |steps|
  {
  }
}
