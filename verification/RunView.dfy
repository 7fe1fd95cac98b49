/** The log-derived view against the run itself: what the console shows for each plan step
    is what the orchestrator decided. */
module RunView {
  import opened Sequences
  import opened Gate
  import opened StepIds
  import opened Orchestrator
  import opened RunEvents
  import opened Selectors
  import RunSafety

  function WireLog(log: seq<Envelope>, trace: string): seq<Wire> { Map(log, WireOf(trace)) }

  function PositionIn(e: Envelope): Option<Position> {
    if IsVerdict(e) then Some(Position(e.id.n, if e.id.Reverify? then 2 else 1)) else None
  }

  lemma PositionOnWire(e: Envelope, trace: string)
    ensures PositionOf(WireOf(trace)(e)) == PositionIn(e)
  {
    ParseDecides(e.id);
  }

  lemma WireAppend(log: seq<Envelope>, e: Envelope, trace: string)
    ensures WireLog(log + [e], trace) == WireLog(log, trace) + [WireOf(trace)(e)]
  {
    MapAppend(log, e, WireOf(trace));
  }

  lemma BestAppend(log: seq<Envelope>, e: Envelope, trace: string, index: nat)
    ensures BestHit(WireLog(log + [e], trace), index) ==
            Better(BestHit(WireLog(log, trace), index), WireOf(trace)(e), index)
  {
    WireAppend(log, e, trace);
    var list := WireLog(log + [e], trace);
    assert list[..|list| - 1] == WireLog(log, trace);
  }

  /** Only the verdict envelopes matter to the selector. */
  lemma {:induction false} BestOfVerdicts(log: seq<Envelope>, trace: string, index: nat)
    ensures BestHit(WireLog(log, trace), index) == BestHit(WireLog(Verdicts(log), trace), index)
  {
    if log != [] {
      var init, e := log[..|log| - 1], log[|log| - 1];
      assert log == init + [e];
      BestOfVerdicts(init, trace, index);
      BestAppend(init, e, trace, index);
      VerdictsAppend(init, e);
      PositionOnWire(e, trace);
      if IsVerdict(e) {
        BestAppend(Verdicts(init), e, trace, index);
      } else {
        assert Verdicts(init) + [] == Verdicts(init);
      }
    }
  }

  /** Every verdict of step `k` carries that step's number. */
  ghost predicate Owned(k: nat, vs: seq<Envelope>) {
    forall i :: 0 <= i < |vs| ==> PositionIn(vs[i]).Some? && PositionIn(vs[i]).value.index == k
  }

  lemma WordOwned(o: Oracle, sha: string -> string, k: nat, vs: seq<Envelope>, accepted: bool)
    requires VerdictWord(o, sha, k, vs, accepted)
    ensures Owned(k, vs)
    ensures |vs| <= 2 && (|vs| == 2 ==> vs[0].id.Verify? && vs[1].id.Reverify?)
    ensures |vs| == 1 ==> vs[0].id.Verify?
  {
  }

  lemma {:induction false} BestSkips(log: seq<Envelope>, vs: seq<Envelope>, k: nat, trace: string, index: nat)
    requires Owned(k, vs) && k != index
    ensures BestHit(WireLog(log + vs, trace), index) == BestHit(WireLog(log, trace), index)
  {
    hide BestHit;
    hide WireOf;
    hide PositionOf;
    if vs == [] {
      assert log + vs == log;
    } else {
      var init, e := vs[..|vs| - 1], vs[|vs| - 1];
      assert PositionIn(e).Some? && PositionIn(e).value.index == k;
      hide PositionIn;
      BestSkips(log, init, k, trace, index);
      assert log + vs == log + init + [e];
      BestAppend(log + init, e, trace, index);
      PositionOnWire(e, trace);
    }
  }

  lemma NoHits(trace: string, index: nat)
    ensures BestHit(WireLog([], trace), index) == None
  {
  }

  lemma {:induction false} BestStarts(log: seq<Envelope>, vs: seq<Envelope>, trace: string, index: nat)
    requires BestHit(WireLog(log, trace), index).None?
    ensures BestHit(WireLog(log + vs, trace), index) == BestHit(WireLog(vs, trace), index)
  {
    hide Better;
    hide WireOf;
    hide BestHit;
    if vs == [] {
      assert log + vs == log;
      NoHits(trace, index);
    } else {
      var init, e := vs[..|vs| - 1], vs[|vs| - 1];
      BestStarts(log, init, trace, index);
      assert log + vs == log + init + [e] && vs == init + [e];
      BestAppend(log + init, e, trace, index);
      BestAppend(init, e, trace, index);
    }
  }

  /** In a run's verdicts the best hit for a position is found among that step's own. */
  lemma {:induction false} BestOfWords(words: seq<seq<Envelope>>, trace: string, index: nat)
    requires forall k :: 0 <= k < |words| ==> Owned(k, words[k])
    ensures BestHit(WireLog(Flatten(words), trace), index) ==
      if index < |words| then BestHit(WireLog(words[index], trace), index) else None
  {
    if words != [] {
      var init, k := words[..|words| - 1], |words| - 1;
      BestOfWords(init, trace, index);
      if k == index {
        BestStarts(Flatten(init), words[k], trace, index);
      } else {
        BestSkips(Flatten(init), words[k], k, trace, index);
      }
    }
  }

  /** The best hit of one step is its last verdict. */
  lemma BestOfWord(o: Oracle, sha: string -> string, k: nat, vs: seq<Envelope>, accepted: bool, trace: string)
    requires VerdictWord(o, sha, k, vs, accepted)
    ensures var best := BestHit(WireLog(vs, trace), k);
      if vs == [] then best == None
      else best.Some? && best.value.wire == WireOf(trace)(vs[|vs| - 1])
  {
    WordOwned(o, sha, k, vs, accepted);
    hide VerdictWord;
    if |vs| > 0 {
      PositionOnWire(vs[0], trace);
      BestAppend([], vs[0], trace, k);
      assert [] + [vs[0]] == vs[..1];
      if |vs| == 2 {
        PositionOnWire(vs[1], trace);
        BestAppend([vs[0]], vs[1], trace, k);
        assert vs == [vs[0]] + [vs[1]];
      } else {
        assert vs == vs[..1];
      }
    }
  }

  // ------------------------------------------------------------------- honest sandboxes

  /** The sandbox reports the digest of the diff it was sent, and `rolledBack` exactly for red
      exit codes, as the sidecar does. */
  ghost predicate Honest(o: Oracle, sha: string -> string) {
    forall n, second :: Attempted(o, n, second).Some? && o.branch(n, second).run.Some? ==>
      var run := o.branch(n, second).run.value;
      run.verifiedSha == sha(Attempted(o, n, second).value.unifiedDiff) && (run.rolledBack <==> run.exitCode != 0)
  }

  ghost predicate NonEmptyDrafts(o: Oracle) {
    forall n, second :: Attempted(o, n, second).Some? ==>
      Attempted(o, n, second).value.unifiedDiff != "" && Attempted(o, n, second).value.file != ""
  }

  lemma PassIsGreen(o: Oracle, sha: string -> string, n: nat, second: bool, e: Envelope, trace: string)
    requires Honest(o, sha) && NonEmptyDrafts(o) && FromSandbox(o, sha, n, second, e)
    ensures VerdictOf(WireOf(trace)(e)) == Pass <==> GateOk(e)
  {
    var d := Attempted(o, n, second).value;
    assert d.unifiedDiff != "" && d.file != "";
    match o.branch(n, second).run {
      case None =>
      case Some(run) =>
        assert run.verifiedSha == sha(d.unifiedDiff) && (run.rolledBack <==> run.exitCode != 0);
        GateExact(sha, d, run);
    }
  }

  // ------------------------------------------------------------------- the theorems

  ghost predicate DistinctPositions(es: seq<Envelope>) {
    forall i, j :: 0 <= i < j < |es| && PositionIn(es[i]).Some? ==> PositionIn(es[i]) != PositionIn(es[j])
  }

  lemma {:induction false} WordsDistinct(words: seq<seq<Envelope>>)
    requires forall k :: 0 <= k < |words| ==> Owned(k, words[k]) && DistinctPositions(words[k])
    ensures DistinctPositions(Flatten(words))
    ensures forall i :: 0 <= i < |Flatten(words)| ==>
      PositionIn(Flatten(words)[i]).Some? && PositionIn(Flatten(words)[i]).value.index < |words|
  {
    if words != [] {
      var k := |words| - 1;
      WordsDistinct(words[..k]);
      var flat, last := Flatten(words[..k]), words[k];
      assert forall i :: 0 <= i < |flat + last| ==> (flat + last)[i] == if i < |flat| then flat[i] else last[i - |flat|];
    }
  }

  lemma {:induction false} LogDistinct(log: seq<Envelope>)
    requires DistinctPositions(Verdicts(log))
    ensures DistinctPositions(log)
  {
    if log != [] {
      var init, e := log[..|log| - 1], log[|log| - 1];
      assert log == init + [e];
      VerdictsAppend(init, e);
      var vs := Verdicts(init);
      assert forall i, j :: 0 <= i < j < |vs| ==> Verdicts(log)[i] == vs[i] && Verdicts(log)[j] == vs[j];
      LogDistinct(init);
      if IsVerdict(e) {
        forall i | 0 <= i < |init| && PositionIn(init[i]).Some?
          ensures PositionIn(init[i]) != PositionIn(e)
        {
          FilterMembers(init, IsVerdict);
          assert init[i] in vs;
          var k :| 0 <= k < |vs| && vs[k] == init[i];
          assert Verdicts(log)[k] == vs[k] && Verdicts(log)[|vs|] == e;
        }
      }
    }
  }

  /** Publish `k` delivered a green verdict and raised an error all the same. */
  ghost predicate EscapedAt(o: Oracle, w: World, k: nat) {
    && k < w.publishes && o.publish(k).SentThenRaised?
    && exists e :: Landed(o, w.log, k, e) && IsVerdict(e) && GateOk(e)
  }

  ghost predicate Escapes(o: Oracle, w: World) { exists k :: EscapedAt(o, w, k) }

  /** The console shows `pass` exactly beside the accepted steps. */
  ghost predicate Truthful(log: seq<Envelope>, trace: string, mask: seq<bool>) {
    forall n :: 0 <= n < |mask| ==> (Shown(log, trace, n) == Pass <==> mask[n])
  }

  function Shown(log: seq<Envelope>, trace: string, n: nat): ViewVerdict { HitVerdict(BestHit(WireLog(log, trace), n)) }

  /** With an honest sandbox and non-empty drafts the console shows `pass` beside plan step `n`
      exactly when the step's last verdict is green. */
  lemma ShownExact(o: Oracle, sha: string -> string, words: seq<seq<Envelope>>, mask: seq<bool>, log: seq<Envelope>,
                   n: nat, trace: string)
    requires Honest(o, sha) && NonEmptyDrafts(o)
    requires Worded(o, sha, words, mask) && Verdicts(log) == Flatten(words) && n < |words|
    ensures Shown(log, trace, n) == Pass <==> words[n] != [] && GateOk(words[n][|words[n]| - 1])
  {
    hide VerdictWord;
    hide BestHit;
    hide Verdicts;
    forall k | 0 <= k < |words|
      ensures Owned(k, words[k])
    {
      WordOwned(o, sha, k, words[k], mask[k]);
    }
    BestOfVerdicts(log, trace, n);
    BestOfWords(words, trace, n);
    BestOfWord(o, sha, n, words[n], mask[n], trace);
    LastGreen(o, sha, n, words[n], mask[n], trace);
  }

  lemma LastGreen(o: Oracle, sha: string -> string, n: nat, vs: seq<Envelope>, accepted: bool, trace: string)
    requires Honest(o, sha) && NonEmptyDrafts(o) && VerdictWord(o, sha, n, vs, accepted)
    ensures vs != [] ==> (VerdictOf(WireOf(trace)(vs[|vs| - 1])) == Pass <==> GateOk(vs[|vs| - 1]))
  {
    if vs != [] {
      PassIsGreen(o, sha, n, |vs| == 2, vs[|vs| - 1], trace);
    }
  }

  lemma {:induction false} FlatMember(words: seq<seq<Envelope>>, e: Envelope) returns (n: nat)
    requires e in Flatten(words)
    ensures n < |words| && e in words[n]
  {
    var k := |words| - 1;
    n := k;
    if e !in words[k] {
      n := FlatMember(words[..k], e);
    }
  }

  lemma {:induction false} DeliveredGrows(o: Oracle, j: nat, k: nat)
    requires j <= k
    ensures Delivered(o, j) <= Delivered(o, k)
    ensures j < k && !o.publish(j).Dropped? ==> Delivered(o, j) < Delivered(o, k)
  {
    if j < k {
      DeliveredGrows(o, j, k - 1);
    }
  }

  /** No verdict is on the stream twice, so the publish that delivered it is unique. */
  lemma LandedOnce(o: Oracle, log: seq<Envelope>, j: nat, k: nat, e: Envelope)
    requires Landed(o, log, j, e) && Landed(o, log, k, e) && IsVerdict(e) && DistinctPositions(log)
    ensures j == k
  {
    var a, b := Delivered(o, j), Delivered(o, k);
    assert PositionIn(log[a]).Some?;
    assert a == b;
    if j < k {
      DeliveredGrows(o, j, k);
    } else if k < j {
      DeliveredGrows(o, k, j);
    }
  }

  /** A run's history, as far as the console's verdicts depend on it. */
  ghost predicate Recorded(o: Oracle, sha: string -> string, words: seq<seq<Envelope>>, mask: seq<bool>, w: World) {
    Worded(o, sha, words, mask) && Verdicts(w.log) == Flatten(words) && AllTold(o, w, words, mask)
  }

  lemma RecordedDistinct(o: Oracle, sha: string -> string, words: seq<seq<Envelope>>, mask: seq<bool>, w: World)
    requires Recorded(o, sha, words, mask, w)
    ensures DistinctPositions(w.log)
  {
    hide VerdictWord;
    hide Verdicts;
    hide AllTold;
    forall k | 0 <= k < |words|
      ensures Owned(k, words[k]) && DistinctPositions(words[k])
    {
      WordOwned(o, sha, k, words[k], mask[k]);
    }
    WordsDistinct(words);
    LogDistinct(w.log);
  }

  /** A verdict that escaped stands last among those of a step that was not accepted. */
  lemma EscapeShows(o: Oracle, sha: string -> string, words: seq<seq<Envelope>>, mask: seq<bool>, w: World, k: nat)
    returns (n: nat)
    requires Recorded(o, sha, words, mask, w) && EscapedAt(o, w, k)
    ensures n < |words| && !mask[n] && words[n] != [] && GateOk(words[n][|words[n]| - 1])
  {
    hide *;
    var e := EscapedVerdict(o, w, k);
    RecordedDistinct(o, sha, words, mask, w);
    RecordedFlat(o, sha, words, mask, w);
    n := FlatMember(words, e);
    RecordedAt(o, sha, words, mask, w, n);
    GreenIsLast(o, sha, n, words[n], mask[n], e);
    var j := Teller(o, w, words[n], mask[n]);
    LandedOnce(o, w.log, j, k, e);
  }

  lemma EscapedVerdict(o: Oracle, w: World, k: nat) returns (e: Envelope)
    requires EscapedAt(o, w, k)
    ensures o.publish(k).SentThenRaised? && Landed(o, w.log, k, e) && IsVerdict(e) && GateOk(e) && e in Verdicts(w.log)
  {
    e :| Landed(o, w.log, k, e) && IsVerdict(e) && GateOk(e);
    FilterMembers(w.log, IsVerdict);
  }

  lemma RecordedFlat(o: Oracle, sha: string -> string, words: seq<seq<Envelope>>, mask: seq<bool>, w: World)
    requires Recorded(o, sha, words, mask, w)
    ensures Verdicts(w.log) == Flatten(words) && |words| == |mask|
  {
  }

  lemma RecordedAt(o: Oracle, sha: string -> string, words: seq<seq<Envelope>>, mask: seq<bool>, w: World, n: nat)
    requires Recorded(o, sha, words, mask, w) && n < |words| == |mask|
    ensures VerdictWord(o, sha, n, words[n], mask[n]) && Told(o, w, words[n], mask[n])
  {
  }

  lemma Teller(o: Oracle, w: World, vs: seq<Envelope>, accepted: bool) returns (j: nat)
    requires Told(o, w, vs, accepted) && vs != [] && GateOk(vs[|vs| - 1])
    ensures j < w.publishes && Landed(o, w.log, j, vs[|vs| - 1]) && (o.publish(j).Sent? <==> accepted)
  {
    j :| 0 <= j < w.publishes && Landed(o, w.log, j, vs[|vs| - 1]) && (o.publish(j).Sent? <==> accepted);
  }

  lemma GreenIsLast(o: Oracle, sha: string -> string, n: nat, vs: seq<Envelope>, accepted: bool, e: Envelope)
    requires VerdictWord(o, sha, n, vs, accepted) && e in vs && GateOk(e)
    ensures e == vs[|vs| - 1]
  {
  }

  lemma GreensTell(o: Oracle, sha: string -> string, words: seq<seq<Envelope>>, mask: seq<bool>, w: World, n: nat)
    requires Recorded(o, sha, words, mask, w) && n < |words|
    ensures Escapes(o, w) || (words[n] != [] && GateOk(words[n][|words[n]| - 1]) <==> mask[n])
  {
    hide Verdicts;
    hide FromSandbox;
    assert VerdictWord(o, sha, n, words[n], mask[n]) && Told(o, w, words[n], mask[n]);
    if words[n] != [] && GateOk(words[n][|words[n]| - 1]) && !mask[n] {
      var e := words[n][|words[n]| - 1];
      var k :| 0 <= k < w.publishes && Landed(o, w.log, k, e) && (o.publish(k).Sent? <==> mask[n]);
      LastIsVerdict(o, sha, n, words[n], mask[n]);
      assert EscapedAt(o, w, k);
    }
  }

  lemma LastIsVerdict(o: Oracle, sha: string -> string, n: nat, vs: seq<Envelope>, accepted: bool)
    requires VerdictWord(o, sha, n, vs, accepted) && vs != []
    ensures IsVerdict(vs[|vs| - 1])
  {
  }

  /** For every returned run with an honest sandbox and non-empty drafts: the console shows
      `pass` beside exactly the accepted steps, if and only if no publish that delivered a
      green verdict raised an error. An accepted step shows `pass` in any case. */
  lemma PassMeansAccepted(o: Oracle, sha: string -> string, title: string, cap: int, trace: string)
    returns (mask: seq<bool>)
    requires Honest(o, sha) && NonEmptyDrafts(o)
    ensures var out := RunTicket(o, sha, true, title, cap);
      out.Returned? ==>
        && RunSafety.Split(PlanSteps(o, title, cap), mask, out.result.accepted, out.result.rejected)
        && |mask| == |PlanSteps(o, title, cap)|
        && (forall n :: 0 <= n < |mask| && mask[n] ==> Shown(out.w.log, trace, n) == Pass)
        && (Truthful(out.w.log, trace, mask) <==> !Escapes(o, out.w))
  {
    hide RunTicket;
    hide RunSafety.Split;
    hide EscapedAt;
    hide Shown;
    hide Verdicts;
    hide Worded;
    hide AllTold;
    var words;
    mask, words := RunHistory(o, sha, title, cap);
    var out := RunTicket(o, sha, true, title, cap);
    if out.Returned? {
      SplitLength(PlanSteps(o, title, cap), mask, out.result.accepted, out.result.rejected);
      forall n: nat | n < |mask|
        ensures Shown(out.w.log, trace, n) == Pass <==> words[n] != [] && GateOk(words[n][|words[n]| - 1])
        ensures mask[n] ==> Shown(out.w.log, trace, n) == Pass
      {
        ShownExact(o, sha, words, mask, out.w.log, n, trace);
        AcceptedGreen(o, sha, words, mask, n);
      }
      if Escapes(o, out.w) {
        var k :| EscapedAt(o, out.w, k);
        var n := EscapeShows(o, sha, words, mask, out.w, k);
        assert !Truthful(out.w.log, trace, mask);
      } else {
        forall n: nat | n < |mask|
          ensures Shown(out.w.log, trace, n) == Pass <==> mask[n]
        {
          GreensTell(o, sha, words, mask, out.w, n);
        }
      }
    }
  }

  lemma AcceptedGreen(o: Oracle, sha: string -> string, words: seq<seq<Envelope>>, mask: seq<bool>, n: nat)
    requires Worded(o, sha, words, mask) && n < |words|
    ensures mask[n] ==> words[n] != [] && GateOk(words[n][|words[n]| - 1])
  {
    hide FromSandbox;
    assert VerdictWord(o, sha, n, words[n], mask[n]);
  }

  /** In every returned run the verdict shown beside a plan step is the verdict of the last
      matrix row of that step, and `unverified` when there is none. */
  lemma ViewsAgree(o: Oracle, sha: string -> string, title: string, cap: int, trace: string, index: nat)
    ensures var out := RunTicket(o, sha, true, title, cap);
      out.Returned? ==>
        var list := WireLog(out.w.log, trace);
        var last := LastRow(MatrixRows(list), index);
        HitVerdict(BestHit(list, index)) == if last.None? then Unverified else last.value.verdict
  {
    hide RunTicket;
    hide RunSafety.Split;
    hide BestHit;
    hide MatrixRows;
    hide LastRow;
    hide Worded;
    hide AllTold;
    var mask, words := RunHistory(o, sha, title, cap);
    var out := RunTicket(o, sha, true, title, cap);
    if out.Returned? {
      RecordedDistinct(o, sha, words, mask, out.w);
      WireDistinct(out.w.log, trace);
      PlanAgreesWithMatrix(WireLog(out.w.log, trace), index);
    }
  }

  lemma WireDistinct(log: seq<Envelope>, trace: string)
    requires DistinctPositions(log)
    ensures OneReportEach(WireLog(log, trace))
  {
    var list := WireLog(log, trace);
    forall i, j | 0 <= i < j < |list| && PositionOf(list[i]).Some?
      ensures PositionOf(list[i]) != PositionOf(list[j])
    {
      PositionOnWire(log[i], trace);
      PositionOnWire(log[j], trace);
    }
  }
}
