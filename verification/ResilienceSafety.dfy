/** What one wrapped call does, for every provider, repair model, cache and configuration. */
module ResilienceSafety {
  import opened Sequences
  import opened Text
  import opened Resilience

  /** Schema-valid, when the call enforces a schema. */
  ghost predicate Conforms<V>(s: Settings<V>, v: V) { s.hook.Some? ==> s.hook.value.valid(v) }

  /** The failure of the last provider that was called. */
  function LastFailure(log: seq<Event>, before: Option<Err>): Option<Err> {
    if log == [] then before
    else
      var last := log[|log| - 1];
      if last.Primary? || last.Secondary? then last.failure else LastFailure(log[..|log| - 1], before)
  }

  // ------------------------------------------------------------------- one provider call

  /** The output of the call is invalid, and there is a model to repair it. */
  ghost predicate NeedsRepair<V>(s: Settings<V>, answer: Outcome<V>) {
    answer.Returned? && s.hook.Some? && s.hook.value.hasRepairLlm && !s.hook.value.valid(s.hook.value.structured(answer.value))
  }

  /** What one provider call gives: its own error; its output, read as the schema wants it, when there
      is no schema or the output is valid; the repaired output when that is valid; else the error
      that names what failed. */
  lemma ValidateExactly<V>(o: Oracle<V>, s: Settings<V>, log: seq<Event>, answer: Outcome<V>, event: Option<Err> -> Event)
    ensures var (_, r) := Call(o, s, log, answer, event);
      && (answer.Threw? ==> r == answer)
      && (answer.Returned? && s.hook.None? ==> r == answer)
      && (answer.Returned? && s.hook.Some? ==>
            var h, reply := s.hook.value, o.repair(|Filter(log, (e: Event) => e.Repair?)|);
            && (h.valid(h.structured(answer.value)) ==> r == Returned(h.structured(answer.value)))
            && (!h.valid(h.structured(answer.value)) && !h.hasRepairLlm ==>
                  r == Threw(Err(RepairFailed, "output failed schema validation and no repairLlm was supplied")))
            && (NeedsRepair(s, answer) && reply.RepairThrew? ==>
                  r == Threw(Err(RepairFailed, "repair callLlm failed: " + reply.message)))
            && (NeedsRepair(s, answer) && reply == Repaired(None) ==>
                  r == Threw(Err(RepairFailed, "repair output was not valid JSON")))
            && (NeedsRepair(s, answer) && reply.Repaired? && reply.parsed.Some? ==>
                  r == if h.valid(reply.parsed.value) then Returned(reply.parsed.value)
                       else Threw(Err(RepairFailed, "repaired output still fails validation"))))
  {
  }

  /** The log of one provider call: its event, and a repair exactly when one is needed. */
  ghost predicate CallShape<V>(s: Settings<V>, answer: Outcome<V>, added: seq<Event>, event: Option<Err> -> Event, r: Outcome<V>) {
    && (added == [event(FailureOf(r))] || (added == [event(FailureOf(r)), Repair] && s.hook.Some? &&
          (r.Threw? ==> r.error.kind.RepairFailed?)))
    && (|added| == 2 <==> NeedsRepair(s, answer))
    && (r.Returned? ==> Conforms(s, r.value))
  }

  lemma CallAdds<V>(o: Oracle<V>, s: Settings<V>, log: seq<Event>, answer: Outcome<V>, event: Option<Err> -> Event)
    returns (added: seq<Event>)
    ensures var (log1, r) := Call(o, s, log, answer, event); log1 == log + added && CallShape(s, answer, added, event, r)
  {
    var (log1, r) := Call(o, s, log, answer, event);
    added := log1[|log|..];
  }

  // ------------------------------------------------------------------- the primary stage

  /** Attempts `0 .. k`, all failed and none of them by a failed repair. */
  ghost predicate Failures<V>(o: Oracle<V>, s: Settings<V>, log: seq<Event>, k: nat) {
    && k <= |log|
    && (forall i :: 0 <= i < k ==> !NeedsRepair(s, o.primary(i)))
    && forall i :: 0 <= i < k ==>
         log[i].Primary? && log[i].attempt == i && log[i].failure.Some? && !log[i].failure.value.kind.RepairFailed?
  }

  /** The log of a primary stage that made `k` attempts: all but the last failed, a failed repair
      can only be the last thing, and there is at most one repair. */
  ghost predicate PrimaryShape<V>(o: Oracle<V>, s: Settings<V>, log: seq<Event>, k: nat, stage: Stage<V>) {
    && (forall i :: 0 <= i < k ==> (|log| > k && i == k - 1 <==> NeedsRepair(s, o.primary(i))))
    && k <= |log| <= k + 1 && (k == 0 || k <= s.retries + 1)
    && (k == 0 ==> log == [] && stage.Failing?)
    && (k > 0 ==> Failures(o, s, log, k - 1) && log[k - 1].Primary? && log[k - 1].attempt == k - 1)
    && (|log| > k ==>
          && k > 0 && log[k] == Repair && s.hook.Some?
          && (log[k - 1].failure.Some? ==> log[k - 1].failure.value.kind.RepairFailed?))
    && (stage.Done? <==> k > 0 && log[k - 1].failure.None?)
    && (stage.Done? ==> Conforms(s, stage.value))
    && (stage.Failing? ==> stage.lastError == LastFailure(log, None))
    && (stage.Failing? && k < s.retries + 1 ==> k > 0 && log[k - 1].failure.value.kind.RepairFailed?)
  }

  lemma LastFailureSnoc(log: seq<Event>, e: Event, before: Option<Err>)
    ensures LastFailure(log + [e], before) == if e.Primary? || e.Secondary? then e.failure else LastFailure(log, before)
  {
    assert (log + [e])[..|log|] == log;
  }

  lemma {:induction false} AttemptsShape<V>(o: Oracle<V>, s: Settings<V>, log: seq<Event>, attempt: nat) returns (k: nat)
    requires Failures(o, s, log, attempt) && |log| == attempt && (attempt == 0 || attempt <= s.retries + 1)
    ensures var (log1, stage) := Attempts(o, s, log, attempt, LastFailure(log, None)); PrimaryShape(o, s, log1, k, stage)
    decreases s.retries + 1 - attempt
  {
    hide Call;
    hide PrimaryShape;
    k := attempt;
    if attempt > s.retries {
      AllFailed(o, s, log, attempt);
    } else {
      var (log1, r) := Call(o, s, log, o.primary(attempt), PrimaryEvent(attempt));
      var added := CallAdds(o, s, log, o.primary(attempt), PrimaryEvent(attempt));
      LastFailureSnoc(log, PrimaryEvent(attempt)(FailureOf(r)), None);
      if r.Threw? && !r.error.kind.RepairFailed? {
        k := AttemptsShape(o, s, log1, attempt + 1);
      } else {
        k := attempt + 1;
        LastAttempt(o, s, log, attempt, added, r);
      }
    }
  }

  lemma AllFailed<V>(o: Oracle<V>, s: Settings<V>, log: seq<Event>, k: nat)
    requires Failures(o, s, log, k) && |log| == k && (k == 0 || k <= s.retries + 1) && k > s.retries
    ensures PrimaryShape(o, s, log, k, Failing(LastFailure(log, None)))
  {
  }

  /** An attempt that succeeds or whose repair fails is the last one. */
  lemma LastAttempt<V>(o: Oracle<V>, s: Settings<V>, log: seq<Event>, attempt: nat, added: seq<Event>, r: Outcome<V>)
    requires Failures(o, s, log, attempt) && |log| == attempt <= s.retries
    requires CallShape(s, o.primary(attempt), added, PrimaryEvent(attempt), r) && (r.Threw? ==> r.error.kind.RepairFailed?)
    ensures PrimaryShape(o, s, log + added, attempt + 1, if r.Returned? then Done(r.value) else Failing(Some(r.error)))
  {
    LastFailureSnoc(log, added[0], None);
    if |added| > 1 {
      assert log + added == (log + [added[0]]) + [Repair];
      LastFailureSnoc(log + [added[0]], Repair, None);
    }
    hide LastFailure;
    hide Conforms;
  }

  // ------------------------------------------------------------------- the fallback chain

  /** A step the chain acts on. */
  predicate Active<V>(s: Settings<V>, i: nat)
    requires i < |s.order|
  {
    && s.enabled(s.order[i])
    && match s.order[i]
       case SecondaryProvider => !s.forcedDegraded && s.hasSecondary
       case Stop => false
       case _ => s.baseKey.Some?
  }

  function UpToStop(order: seq<Step>): seq<Step> {
    if order == [] || order[0].Stop? then [] else [order[0]] + UpToStop(order[1..])
  }

  function At(e: Event): int { if e.Secondary? || e.Looked? then e.position else -1 }

  /** An event of the chain belongs to an active step before the first stop. */
  ghost predicate Belongs<V>(s: Settings<V>, from: nat, e: Event) {
    match e
    case Primary(_, _) => false
    case Repair => s.hook.Some? && !s.forcedDegraded
    case Secondary(p, _) => from <= p < |UpToStop(s.order)| && p < |s.order| && Active(s, p) && s.order[p].SecondaryProvider?
    case Looked(p, key) => from <= p < |UpToStop(s.order)| && p < |s.order| && Active(s, p) &&
                           !s.order[p].SecondaryProvider? &&
                           key == if s.order[p].Replay? then "replay::" + s.baseKey.value else s.baseKey.value
  }

  /** The steps act in array order, each at most once. */
  ghost predicate InOrder(log: seq<Event>) {
    forall a, b :: 0 <= a < b < |log| && At(log[a]) >= 0 && At(log[b]) >= 0 ==> At(log[a]) < At(log[b])
  }

  /** The value of a cache or replay entry that the chain looked up. */
  ghost predicate FromLookup<V>(o: Oracle<V>, log: seq<Event>, v: V) {
    log != [] && log[|log| - 1].Looked? && o.get(log[|log| - 1].position, log[|log| - 1].key) == Hit(v)
  }

  /** A repair belongs to the secondary call right before it, whose output was invalid: either the
      repair succeeded or its failure is the call's failure. So no call is repaired twice. */
  ghost predicate RepairsFollow(log: seq<Event>) {
    forall i :: 0 <= i < |log| && log[i].Repair? ==> i > 0 && RepairedCall(log[i - 1])
  }

  predicate RepairedNext(log: seq<Event>, i: nat) { i + 1 < |log| && log[i + 1].Repair? }

  /** A secondary call is repaired exactly when it needs to be. */
  ghost predicate RepairsComplete<V>(o: Oracle<V>, s: Settings<V>, log: seq<Event>) {
    forall i :: 0 <= i < |log| && log[i].Secondary? ==>
      (RepairedNext(log, i) <==> NeedsRepair(s, o.secondary(log[i].position)))
  }

  ghost predicate RepairedCall(e: Event) { e.Secondary? && (e.failure.Some? ==> e.failure.value.kind.RepairFailed?) }

  /** What the chain may do from step `from` on. */
  ghost predicate FallbackShape<V>(o: Oracle<V>, s: Settings<V>, from: nat, added: seq<Event>) {
    && (forall e :: e in added ==> Belongs(s, from, e))
    && InOrder(added)
    && RepairsFollow(added) && RepairsComplete(o, s, added)
  }

  /** Every active step from `from` up to the first stop was tried, and no lookup hit. */
  ghost predicate Exhausted<V>(o: Oracle<V>, s: Settings<V>, from: nat, added: seq<Event>) {
    && (forall p: nat :: from <= p < |UpToStop(s.order)| && p < |s.order| && Active(s, p) ==> Acted(added, p))
    && (forall e :: e in added && e.Looked? ==> !o.get(e.position, e.key).Hit?)
  }

  ghost predicate ChainShape<V>(o: Oracle<V>, s: Settings<V>, from: nat, added: seq<Event>, before: Option<Err>, stage: Stage<V>) {
    && FallbackShape(o, s, from, added)
    && (stage.Done? ==> Conforms(s, stage.value) || FromLookup(o, added, stage.value))
    && (stage.Failing? ==> stage.lastError == LastFailure(added, before) && Exhausted(o, s, from, added))
  }

  ghost predicate Acted(log: seq<Event>, p: nat) { exists e :: e in log && At(e) == p }

  lemma {:induction false} UpToStopAt(order: seq<Step>, i: nat)
    ensures i < |order| && (forall j :: 0 <= j <= i ==> !order[j].Stop?) ==> i < |UpToStop(order)|
    ensures i < |order| && order[i].Stop? ==> |UpToStop(order)| <= i
    ensures |UpToStop(order)| <= |order| && UpToStop(order) == order[..|UpToStop(order)|]
  {
    if order != [] && !order[0].Stop? {
      UpToStopAt(order[1..], if i > 0 then i - 1 else 0);
    }
  }

  lemma {:induction false} LastFailureConcat(a: seq<Event>, b: seq<Event>, before: Option<Err>)
    ensures LastFailure(a + b, before) == LastFailure(b, LastFailure(a, before))
  {
    if b == [] {
      assert a + b == a;
    } else {
      assert (a + b)[..|a + b| - 1] == a + b[..|b| - 1];
      LastFailureConcat(a, b[..|b| - 1], before);
    }
  }

  /** What a single step may add to the log. */
  ghost predicate StepShape<V>(o: Oracle<V>, s: Settings<V>, i: nat, head: seq<Event>)
    requires i < |s.order|
  {
    && (forall e :: e in head ==> Belongs(s, i, e) && At(e) <= i)
    && (head == [] || (|head| == 1 && At(head[0]) == i) || (|head| == 2 && RepairedCall(head[0]) && At(head[0]) == i && head[1] == Repair))
    && (Active(s, i) ==> head != [])
    && (head != [] && head[0].Secondary? ==> (|head| == 2 <==> NeedsRepair(s, o.secondary(i))))
    && (|head| == 1 && head[0].Looked? ==> !o.get(i, head[0].key).Hit?)
  }

  lemma PrependOrder<V>(o: Oracle<V>, s: Settings<V>, i: nat, head: seq<Event>, rest: seq<Event>)
    requires i < |s.order| && StepShape(o, s, i, head) && InOrder(rest) && forall e :: e in rest ==> Belongs(s, i + 1, e)
    ensures InOrder(head + rest)
  {
    var all := head + rest;
    forall a, b | 0 <= a < b < |all| && At(all[a]) >= 0 && At(all[b]) >= 0
      ensures At(all[a]) < At(all[b])
    {
      if a >= |head| {
        assert all[a] == rest[a - |head|] && all[b] == rest[b - |head|];
      } else if b >= |head| {
        assert all[b] == rest[b - |head|] && all[b] in rest;
        assert all[a] in head;
      }
    }
  }

  lemma PrependActed<V>(o: Oracle<V>, s: Settings<V>, i: nat, head: seq<Event>, rest: seq<Event>, p: nat)
    requires i < |s.order| && StepShape(o, s, i, head) && i <= p < |s.order| && Active(s, p)
    requires p > i ==> Acted(rest, p)
    ensures Acted(head + rest, p)
  {
    if p == i {
      assert head[0] in head + rest && At(head[0]) == p;
    } else {
      var e :| e in rest && At(e) == p;
      assert e in head + rest;
    }
  }

  lemma PrependShape<V>(o: Oracle<V>, s: Settings<V>, i: nat, head: seq<Event>, rest: seq<Event>)
    requires i < |s.order| && StepShape(o, s, i, head) && FallbackShape(o, s, i + 1, rest)
    ensures FallbackShape(o, s, i, head + rest)
  {
    hide Active;
    PrependOrder(o, s, i, head, rest);
    hide InOrder;
    PrependRepairs(o, s, i, head, rest);
    PrependComplete(o, s, i, head, rest);
    hide RepairsFollow;
    hide RepairsComplete;
  }

  lemma PrependRepairs<V>(o: Oracle<V>, s: Settings<V>, i: nat, head: seq<Event>, rest: seq<Event>)
    requires i < |s.order| && StepShape(o, s, i, head) && RepairsFollow(rest)
    ensures RepairsFollow(head + rest)
  {
    hide RepairedCall;
    hide Belongs;
    hide Active;
    var all := head + rest;
    forall k | 0 <= k < |all| && all[k].Repair?
      ensures k > 0 && RepairedCall(all[k - 1])
    {
      if k >= |head| {
        assert all[k] == rest[k - |head|] && all[k - 1] == rest[k - |head| - 1];
      }
    }
  }

  lemma PrependComplete<V>(o: Oracle<V>, s: Settings<V>, i: nat, head: seq<Event>, rest: seq<Event>)
    requires i < |s.order| && StepShape(o, s, i, head) && RepairsFollow(rest) && RepairsComplete(o, s, rest)
    ensures RepairsComplete(o, s, head + rest)
  {
    hide NeedsRepair;
    hide Belongs;
    hide Active;
    var all := head + rest;
    forall k: nat | k < |all| && all[k].Secondary?
      ensures RepairedNext(all, k) <==> NeedsRepair(s, o.secondary(all[k].position))
    {
      if k >= |head| {
        assert RepairedNext(all, k) <==> RepairedNext(rest, k - |head|);
        assert all[k] == rest[k - |head|];
      } else {
        assert all[0] == head[0] && At(head[0]) == i && (|head| == 2 ==> all[1] == head[1]);
        assert |head| == 1 && rest != [] ==> all[1] == rest[0];
      }
    }
  }

  lemma PrependExhausts<V>(o: Oracle<V>, s: Settings<V>, i: nat, head: seq<Event>, rest: seq<Event>)
    requires i < |s.order| && StepShape(o, s, i, head) && Exhausted(o, s, i + 1, rest)
    ensures Exhausted(o, s, i, head + rest)
  {
    forall p: nat | i <= p < |UpToStop(s.order)| && p < |s.order| && Active(s, p)
      ensures Acted(head + rest, p)
    {
      PrependActed(o, s, i, head, rest, p);
    }
    hide Acted;
    hide UpToStop;
    hide Active;
  }

  /** A step in front of a well-shaped rest of the chain. */
  lemma Prepend<V>(o: Oracle<V>, s: Settings<V>, i: nat, head: seq<Event>, rest: seq<Event>, before: Option<Err>, stage: Stage<V>)
    requires i < |s.order| && StepShape(o, s, i, head)
    requires ChainShape(o, s, i + 1, rest, LastFailure(head, before), stage)
    ensures ChainShape(o, s, i, head + rest, before, stage)
  {
    hide FallbackShape;
    hide Exhausted;
    hide LastFailure;
    hide Conforms;
    hide StepShape;
    PrependShape(o, s, i, head, rest);
    LastFailureConcat(head, rest, before);
    if stage.Failing? {
      PrependExhausts(o, s, i, head, rest);
    } else if !Conforms(s, stage.value) {
      assert (head + rest)[|head + rest| - 1] == rest[|rest| - 1];
    }
  }

  /** The chain follows the configured order up to the first stop. */
  lemma {:induction false} ChainAdds<V>(o: Oracle<V>, s: Settings<V>, log: seq<Event>, i: nat, last: Option<Err>)
    returns (added: seq<Event>)
    requires i <= |s.order| && forall j :: 0 <= j < i ==> !s.order[j].Stop?
    ensures var (log1, stage) := Chain(o, s, log, i, last); log1 == log + added && ChainShape(o, s, i, added, last, stage)
    decreases |s.order| - i, 1
  {
    hide ChainShape;
    UpToStopAt(s.order, i);
    added := [];
    if i == |s.order| || s.order[i].Stop? {
      ChainEnds(o, s, i, last);
      return;
    }
    if !Active(s, i) {
      added := ChainAdds(o, s, log, i + 1, last);
      assert [] + added == added;
      Prepend(o, s, i, [], added, last, Chain(o, s, log, i + 1, last).1);
    } else if s.order[i].SecondaryProvider? {
      added := SecondaryStep(o, s, log, i, last);
    } else {
      added := LookupStep(o, s, log, i, last);
    }
  }

  lemma SecondaryStep<V>(o: Oracle<V>, s: Settings<V>, log: seq<Event>, i: nat, last: Option<Err>) returns (added: seq<Event>)
    requires i < |s.order| && i < |UpToStop(s.order)| && Active(s, i) && s.order[i].SecondaryProvider?
    requires forall j :: 0 <= j <= i ==> !s.order[j].Stop?
    ensures var (log1, stage) := Chain(o, s, log, i, last); log1 == log + added && ChainShape(o, s, i, added, last, stage)
    decreases |s.order| - i, 0
  {
    hide ChainShape;
    hide Call;
    hide LastFailure;
    var (log1, r) := Call(o, s, log, o.secondary(i), SecondaryEvent(i));
    var head := CallAdds(o, s, log, o.secondary(i), SecondaryEvent(i));
    LastOfCall(head, r, i, last);
    assert r.Returned? || r.Threw?;
    if r.Returned? {
      added := head;
      SecondaryDone(o, s, i, head, last, r);
    } else {
      var rest := ChainAdds(o, s, log1, i + 1, Some(r.error));
      added := head + rest;
      Prepend(o, s, i, head, rest, last, Chain(o, s, log1, i + 1, Some(r.error)).1);
      assert log + head + rest == log + added;
    }
  }

  lemma LookupStep<V>(o: Oracle<V>, s: Settings<V>, log: seq<Event>, i: nat, last: Option<Err>) returns (added: seq<Event>)
    requires i < |s.order| && i < |UpToStop(s.order)| && Active(s, i) && !s.order[i].SecondaryProvider?
    requires forall j :: 0 <= j <= i ==> !s.order[j].Stop?
    ensures var (log1, stage) := Chain(o, s, log, i, last); log1 == log + added && ChainShape(o, s, i, added, last, stage)
    decreases |s.order| - i, 0
  {
    hide ChainShape;
    var key := Key(s.order[i], s.baseKey.value);
    var head := [Looked(i, key)];
    if o.get(i, key).Hit? {
      added := head;
      LookupDone(o, s, i, head, last, o.get(i, key).value);
    } else {
      assert head[..0] == [];
      var rest := ChainAdds(o, s, log + head, i + 1, last);
      added := head + rest;
      Prepend(o, s, i, head, rest, last, Chain(o, s, log + head, i + 1, last).1);
      assert log + head + rest == log + added;
    }
  }

  lemma LastOfCall<V>(head: seq<Event>, r: Outcome<V>, i: nat, last: Option<Err>)
    requires head == [SecondaryEvent(i)(FailureOf(r))] || head == [SecondaryEvent(i)(FailureOf(r)), Repair]
    ensures LastFailure(head, last) == FailureOf(r)
  {
    var first := SecondaryEvent(i)(FailureOf(r));
    assert [first][..0] == [] && [first, Repair][..1] == [first];
  }

  lemma ChainEnds<V>(o: Oracle<V>, s: Settings<V>, i: nat, last: Option<Err>)
    requires |UpToStop(s.order)| <= i
    ensures ChainShape(o, s, i, [], last, Failing(last))
  {
  }

  lemma SecondaryDone<V>(o: Oracle<V>, s: Settings<V>, i: nat, head: seq<Event>, last: Option<Err>, r: Outcome<V>)
    requires i < |s.order| && i < |UpToStop(s.order)| && Active(s, i) && s.order[i].SecondaryProvider?
    requires r.Returned? && CallShape(s, o.secondary(i), head, SecondaryEvent(i), r)
    ensures ChainShape(o, s, i, head, last, Done(r.value))
  {
    hide Filter;
  }

  lemma LookupDone<V>(o: Oracle<V>, s: Settings<V>, i: nat, head: seq<Event>, last: Option<Err>, v: V)
    requires i < |s.order| && i < |UpToStop(s.order)| && Active(s, i) && !s.order[i].SecondaryProvider?
    requires head == [Looked(i, Key(s.order[i], s.baseKey.value))] && o.get(i, head[0].key) == Hit(v)
    ensures ChainShape(o, s, i, head, last, Done(v))
  {
  }

  // ------------------------------------------------------------------- one wrapped call

  lemma NoFallback<V>(o: Oracle<V>, s: Settings<V>)
    ensures FallbackShape(o, s, 0, [])
  {
  }

  /** The reason by the last provider that failed: a failed repair, a timeout by its kind or by its
      message, or anything else; a forced-degraded call fails without a provider, and so does one
      that may not even try once. */
  ghost predicate Explains<V>(forced: bool, last: Option<Err>, result: Result<V>)
    requires result.Degraded?
  {
    if forced then result.reason == "forced_degraded" && result.originalError == Some(SKIPPED.message)
    else if last.None? then result.reason == "primary_failed" && result.originalError == None
    else
      && result.originalError == Some(last.value.message)
      && (last.value.kind == RepairFailed ==> result.reason == "validation_repair_failed")
      && (last.value.kind == TimeoutNamed ==> result.reason == "primary_timeout")
      && (last.value.kind == Plain ==>
            result.reason == if Contains(last.value.message, "timed out after") then "primary_timeout" else "primary_failed")
  }

  /** Everything one wrapped call guarantees. The log is a primary part, `primary`, of `k`
      attempts, followed by what the fallback chain did. At most `retries + 1` attempts are made;
      a failed repair ends them; the primary stage repairs at most once and so does each secondary
      call; a forced-degraded call contacts no provider and no repair model. A returned value is
      schema-valid or a cache or replay hit; otherwise every active step was tried in vain, and
      the reason is that of the last provider that failed. */
  lemma WrappedCall<V>(o: Oracle<V>, s: Settings<V>) returns (k: nat, primary: seq<Event>, fallback: seq<Event>)
    ensures var (log, result) := Run(o, s);
      && log == primary + fallback && FallbackShape(o, s, 0, fallback)
      && (if s.forcedDegraded then k == 0 && primary == [] && forall e :: e in log ==> e.Looked?
          else PrimaryShape(o, s, primary, k, Attempts(o, s, [], 0, None).1))
      && (result.Value? ==> Conforms(s, result.value) || FromLookup(o, fallback, result.value))
      && (result.Degraded? ==>
            && Exhausted(o, s, 0, fallback)
            && Explains(s.forcedDegraded, LastFailure(log, None), result))
  {
    hide Chain;
    hide Attempts;
    hide PrimaryShape;
    hide FallbackShape;
    hide Exhausted;
    hide Conforms;
    hide LastFailure;
    hide Contains;
    k, primary, fallback := 0, [], [];
    var (log, stage) := PrimaryStage(o, s);
    if !s.forcedDegraded {
      NothingYet();
      k := AttemptsShape(o, s, [], 0);
      PrimaryGives(o, s, log, k, stage);
      primary := log;
    }
    if stage.Failing? {
      fallback := ChainAdds(o, s, log, 0, stage.lastError);
      var end := Chain(o, s, log, 0, stage.lastError).1;
      assert end.Done? || end.Failing?;
      LastFailureConcat(primary, fallback, None);
      if s.forcedDegraded {
        OnlyLookups(o, s, fallback, Some(SKIPPED));
      }
    } else {
      NoFallback(o, s);
      assert log + [] == log;
    }
  }

  lemma NothingYet()
    ensures LastFailure([], None) == None
  {
  }

  lemma OnlyLookups<V>(o: Oracle<V>, s: Settings<V>, log: seq<Event>, before: Option<Err>)
    requires s.forcedDegraded && FallbackShape(o, s, 0, log)
    ensures LastFailure(log, before) == before && forall e :: e in log ==> e.Looked?
  {
    NoProviders(s, log, before);
  }

  lemma PrimaryGives<V>(o: Oracle<V>, s: Settings<V>, log: seq<Event>, k: nat, stage: Stage<V>)
    requires PrimaryShape(o, s, log, k, stage)
    ensures stage.Done? ==> Conforms(s, stage.value)
    ensures stage.Failing? ==> stage.lastError == LastFailure(log, None)
  {
  }

  lemma {:induction false} NoProviders<V>(s: Settings<V>, log: seq<Event>, before: Option<Err>)
    requires s.forcedDegraded && forall e :: e in log ==> Belongs(s, 0, e)
    ensures LastFailure(log, before) == before
    ensures forall e :: e in log ==> e.Looked?
  {
    if log != [] {
      var last := log[|log| - 1];
      assert last in log;
      NoProviders(s, log[..|log| - 1], before);
    }
  }

  function Cut<V>(s: Settings<V>): Settings<V> { s.(order := UpToStop(s.order)) }

  lemma {:induction false} ChainCut<V>(o: Oracle<V>, s: Settings<V>, log: seq<Event>, i: nat, last: Option<Err>)
    requires i <= |UpToStop(s.order)| <= |s.order| && UpToStop(s.order) == s.order[..|UpToStop(s.order)|]
    ensures Chain(o, s, log, i, last) == Chain(o, Cut(s), log, i, last)
    decreases |UpToStop(s.order)| - i
  {
    UpToStopAt(s.order, i);
    NoStopBefore(s.order);
    hide UpToStop;
    if i < |UpToStop(s.order)| {
      var step := s.order[i];
      assert Cut(s).order[i] == step && Active(Cut(s), i) == Active(s, i);
      if !Active(s, i) {
        ChainCut(o, s, log, i + 1, last);
      } else if step.SecondaryProvider? {
        var (log1, r) := Call(o, s, log, o.secondary(i), SecondaryEvent(i));
        assert Call(o, Cut(s), log, o.secondary(i), SecondaryEvent(i)) == (log1, r);
        hide Call;
        if r.Threw? {
          ChainCut(o, s, log1, i + 1, Some(r.error));
        }
      } else {
        ChainCut(o, s, log + [Looked(i, Key(step, s.baseKey.value))], i + 1, last);
      }
    } else if i < |s.order| {
      StopAfter(s.order);
    }
  }

  lemma {:induction false} NoStopBefore(order: seq<Step>)
    ensures forall step :: step in UpToStop(order) ==> !step.Stop?
  {
    if order != [] && !order[0].Stop? {
      NoStopBefore(order[1..]);
    }
  }

  lemma {:induction false} StopAfter(order: seq<Step>)
    requires |UpToStop(order)| < |order|
    ensures order[|UpToStop(order)|].Stop?
  {
    if !order[0].Stop? {
      StopAfter(order[1..]);
    }
  }

  /** Nothing after the first "none" of the configured order matters. */
  lemma NothingAfterStop<V>(o: Oracle<V>, s: Settings<V>)
    ensures Run(o, s) == Run(o, Cut(s))
  {
    hide Chain;
    UpToStopAt(s.order, 0);
    AttemptsCut(o, s, [], 0, None);
    var (log, stage) := PrimaryStage(o, s);
    assert stage.Done? || stage.Failing?;
    hide Attempts;
    if stage.Failing? {
      ChainCut(o, s, log, 0, stage.lastError);
    }
  }

  lemma {:induction false} AttemptsCut<V>(o: Oracle<V>, s: Settings<V>, log: seq<Event>, attempt: nat, last: Option<Err>)
    ensures Attempts(o, s, log, attempt, last) == Attempts(o, Cut(s), log, attempt, last)
    decreases s.retries + 1 - attempt
  {
    if attempt <= s.retries {
      var (log1, r) := Call(o, s, log, o.primary(attempt), PrimaryEvent(attempt));
      assert Call(o, Cut(s), log, o.primary(attempt), PrimaryEvent(attempt)) == (log1, r);
      hide Call;
      if r.Threw? {
        AttemptsCut(o, s, log1, attempt + 1, Some(r.error));
      }
    }
  }

  // ------------------------------------------------------------------- backoff

  datatype Policy = Exponential | Linear | Fixed | NoDelay

  datatype Backoff = Backoff(policy: Policy, baseMs: real, factor: real, maxMs: real, jitter: bool)

  function Power(x: real, n: nat): real { if n == 0 then 1.0 else x * Power(x, n - 1) }

  /** `Math.round`: ties go up. */
  function Round(x: real): int { (x + 0.5).Floor }

  function RawDelay(b: Backoff, attempt: nat): real
    requires attempt > 0
  {
    match b.policy
    case Exponential => b.baseMs * Power(b.factor, attempt - 1)
    case Linear => b.baseMs * attempt as real
    case Fixed => b.baseMs
    case NoDelay => 0.0
  }

  function Least(a: real, b: real): real { if a <= b then a else b }

  function Product(x: real, y: real): real { x * y }

  function Jittered(ms: real, u: real): real {
    var factor := 0.75 + u * 0.5;
    var d := Round(Product(ms, factor)) as real;
    if d < 0.0 then 0.0 else d
  }

  /** `u` is the random number in [0, 1) that the jitter draws. */
  function DelayMs(b: Backoff, attempt: nat, u: real): real
    requires attempt > 0
  {
    if b.policy.NoDelay? then 0.0
    else
      var capped := Least(Round(RawDelay(b, attempt)) as real, b.maxMs);
      if b.jitter then Jittered(capped, u) else capped
  }

  /** The whole number nearest to `x`, the greater of two. */
  ghost predicate Nearest(n: int, x: real) { n as real - 0.5 <= x < n as real + 0.5 }

  lemma SwapFactors(x: real, y: real, z: real)
    ensures x * (y * z) == y * (x * z)
  {
  }

  lemma OneMore(x: real, n: nat)
    ensures x * (n + 1) as real == x * n as real + x
  {
    assert (n + 1) as real == n as real + 1.0;
  }

  /** Every policy but none starts with the base delay; from one retry to the next an exponential one
      multiplies by the factor, a linear one adds the base, and a fixed one stays. */
  lemma RawSteps(b: Backoff, attempt: nat)
    requires attempt > 0
    ensures !b.policy.NoDelay? ==> RawDelay(b, 1) == b.baseMs
    ensures b.policy.Exponential? ==> RawDelay(b, attempt + 1) == b.factor * RawDelay(b, attempt)
    ensures b.policy.Linear? ==> RawDelay(b, attempt + 1) == RawDelay(b, attempt) + b.baseMs
    ensures b.policy.Fixed? ==> RawDelay(b, attempt + 1) == RawDelay(b, attempt)
  {
    match b.policy {
      case Exponential =>
        assert Power(b.factor, attempt) == b.factor * Power(b.factor, attempt - 1) && Power(b.factor, 0) == 1.0;
        SwapFactors(b.baseMs, b.factor, Power(b.factor, attempt - 1));
        hide Power;
      case Linear => OneMore(b.baseMs, attempt);
      case _ =>
    }
  }

  lemma RoundIsNearest(x: real)
    ensures Nearest(Round(x), x)
  {
  }

  /** The delay is the raw one, rounded, but at most the cap; jitter draws a factor between 0.75 and
      1.25 and rounds again, never below zero; without a policy there is no delay. */
  lemma DelayExactly(b: Backoff, attempt: nat, u: real) returns (n: int, m: int)
    requires attempt > 0
    ensures b.policy.NoDelay? ==> DelayMs(b, attempt, u) == 0.0
    ensures !b.policy.NoDelay? ==>
      var calm := if n as real < b.maxMs then n as real else b.maxMs;
      && Nearest(n, RawDelay(b, attempt)) && Nearest(m, Product(calm, 0.75 + u * 0.5))
      && DelayMs(b, attempt, u) == if !b.jitter then calm else if m < 0 then 0.0 else m as real
  {
    n := Round(RawDelay(b, attempt));
    var calm := if n as real < b.maxMs then n as real else b.maxMs;
    m := Round(Product(calm, 0.75 + u * 0.5));
    RoundIsNearest(RawDelay(b, attempt));
    RoundIsNearest(Product(calm, 0.75 + u * 0.5));
    hide RawDelay;
    hide Product;
    hide Round;
    hide Nearest;
  }

  lemma {:induction false} PowerGrows(x: real, n: nat)
    requires x >= 1.0
    ensures 1.0 <= Power(x, n) <= Power(x, n + 1)
  {
    if n > 0 {
      PowerGrows(x, n - 1);
    }
    ScaleUp(x, Power(x, n));
  }

  lemma ScaleUp(x: real, y: real)
    requires x >= 1.0 && y >= 1.0
    ensures x * y >= y
  {
  }

  lemma ScaleBoth(c: real, x: real, y: real)
    requires c >= 0.0 && x <= y
    ensures c * x <= c * y
  {
  }

  lemma RawDelayGrows(b: Backoff, attempt: nat)
    requires attempt > 0 && 0.0 <= b.baseMs && 1.0 <= b.factor
    ensures 0.0 <= RawDelay(b, attempt) <= RawDelay(b, attempt + 1)
  {
    PowerGrows(b.factor, attempt - 1);
    ScaleBoth(b.baseMs, Power(b.factor, attempt - 1), Power(b.factor, attempt));
    ScaleBoth(b.baseMs, 0.0, Power(b.factor, attempt - 1));
    ScaleBoth(b.baseMs, attempt as real, (attempt + 1) as real);
    ScaleBoth(b.baseMs, 0.0, attempt as real);
    hide Power;
  }

  lemma RoundGrows(x: real, y: real)
    requires x <= y
    ensures Round(x) <= Round(y) && (0.0 <= x ==> 0 <= Round(x))
  {
  }

  /** Without jitter delays never shrink from one retry to the next and never pass the cap. */
  lemma DelaysGrow(b: Backoff, attempt: nat, u: real)
    requires attempt > 0 && 0.0 <= b.baseMs && 1.0 <= b.factor && 0.0 <= b.maxMs && !b.jitter
    ensures 0.0 <= DelayMs(b, attempt, u) <= DelayMs(b, attempt + 1, u) <= b.maxMs
  {
    RawDelayGrows(b, attempt);
    RoundGrows(RawDelay(b, attempt), RawDelay(b, attempt + 1));
    hide RawDelay;
    hide Round;
  }

  lemma ProductGrows(c: real, x: real, y: real)
    requires c >= 0.0 && x <= y
    ensures Product(c, x) <= Product(c, y) && Product(c, 0.75) == 0.75 * c && Product(c, 1.25) == 1.25 * c
  {
  }

  lemma Between(c: real, u: real)
    requires 0.0 <= c && 0.0 <= u < 1.0
    ensures Round(0.75 * c) as real <= Jittered(c, u) <= Round(1.25 * c) as real
  {
    var f := 0.75 + u * 0.5;
    ProductGrows(c, 0.75, f);
    ProductGrows(c, f, 1.25);
    hide Product;
    RoundGrows(0.75 * c, Product(c, f));
    RoundGrows(Product(c, f), 1.25 * c);
    hide Round;
  }

  /** Jitter moves a delay by at most a quarter, before rounding. */
  lemma JitterBounded(b: Backoff, attempt: nat, u: real)
    requires attempt > 0 && 0.0 <= b.baseMs && 1.0 <= b.factor && 0.0 <= b.maxMs && b.jitter && 0.0 <= u < 1.0
    requires !b.policy.NoDelay?
    ensures var calm := DelayMs(b.(jitter := false), attempt, u);
      Round(0.75 * calm) as real <= DelayMs(b, attempt, u) <= Round(1.25 * calm) as real
  {
    hide RawDelay;
    hide Round;
    hide Jittered;
    DelaysGrow(b.(jitter := false), attempt, u);
    SameRaw(b, attempt);
    assert DelayMs(b, attempt, u) == Jittered(DelayMs(b.(jitter := false), attempt, u), u);
    Between(DelayMs(b.(jitter := false), attempt, u), u);
  }

  lemma SameRaw(b: Backoff, attempt: nat)
    requires attempt > 0
    ensures RawDelay(b.(jitter := false), attempt) == RawDelay(b, attempt)
  {
  }
}
