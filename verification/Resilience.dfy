/** The retry and fallback engine with its validation hook (resilience/wrapper.ts). Providers, the
    repair model and the cache are adversaries: every call asks an oracle. Real timeouts are one
    of the ways a call can fail. */
module Resilience {
  import opened Sequences
  import opened Text

  datatype ErrKind = RepairFailed | TimeoutNamed | Plain

  datatype Err = Err(kind: ErrKind, message: string)

  datatype Outcome<V> = Returned(value: V) | Threw(error: Err)

  /** `None` stands for an answer that is not a string or not JSON. */
  datatype RepairReply<V> = RepairThrew(message: string) | Repaired(parsed: Option<V>)

  datatype Lookup<V> = Hit(value: V) | Miss | LookupThrew(error: Err)

  /** `structured` reads the callable's output (raw JSON text is parsed first); `valid` is the
      schema; without a repair model an invalid output cannot be repaired. */
  datatype Hook<!V> = Hook(structured: V -> V, valid: V -> bool, hasRepairLlm: bool)

  datatype Step = SecondaryProvider | Cache | Replay | Stop

  datatype Settings<!V> = Settings(
    retries: int, forcedDegraded: bool, order: seq<Step>, enabled: Step -> bool,
    hasSecondary: bool, baseKey: Option<string>, hook: Option<Hook<V>>)

  /** The outside world, call by call: primary attempts, secondary calls and repairs are numbered;
      a lookup may answer differently each time. */
  datatype Oracle<!V> = Oracle(primary: nat -> Outcome<V>, secondary: nat -> Outcome<V>,
                               repair: nat -> RepairReply<V>, get: (nat, string) -> Lookup<V>)

  /** What the engine did, in order. A provider event carries the failure of its stage. */
  datatype Event = Primary(attempt: nat, failure: Option<Err>) | Secondary(position: nat, failure: Option<Err>)
                 | Repair | Looked(position: nat, key: string)

  datatype Result<V> = Value(value: V) | Degraded(reason: string, originalError: Option<string>)

  const REPLAY_PREFIX := "replay::"

  // ------------------------------------------------------------------- validation

  function Repairs(log: seq<Event>): nat { |Filter(log, (e: Event) => e.Repair?)| }

  function RepairError(message: string): Err { Err(RepairFailed, message) }

  /** The hook of `withValidation`: exactly one repair round-trip for an invalid output. */
  function Validate<V>(o: Oracle<V>, hook: Option<Hook<V>>, repairs: nat, raw: V): (bool, Outcome<V>) {
    if hook.None? then (false, Returned(raw))
    else
      var h := hook.value;
      var candidate := h.structured(raw);
      if h.valid(candidate) then (false, Returned(candidate))
      else if !h.hasRepairLlm then
        (false, Threw(RepairError("output failed schema validation and no repairLlm was supplied")))
      else
        match o.repair(repairs)
        case RepairThrew(message) => (true, Threw(RepairError("repair callLlm failed: " + message)))
        case Repaired(None) => (true, Threw(RepairError("repair output was not valid JSON")))
        case Repaired(Some(fixed)) =>
          (true, if h.valid(fixed) then Returned(fixed) else Threw(RepairError("repaired output still fails validation")))
  }

  function FailureOf<V>(r: Outcome<V>): Option<Err> { if r.Threw? then Some(r.error) else None }

  /** One call of a provider followed by the hook, and what it adds to the log. */
  function Call<V>(o: Oracle<V>, s: Settings<V>, log: seq<Event>, answer: Outcome<V>, event: Option<Err> -> Event):
      (seq<Event>, Outcome<V>)
  {
    match answer
    case Threw(e) => (log + [event(Some(e))], answer)
    case Returned(raw) =>
      var (repaired, r) := Validate(o, s.hook, Repairs(log), raw);
      (log + [event(FailureOf(r))] + (if repaired then [Repair] else []), r)
  }

  function PrimaryEvent(attempt: nat): Option<Err> -> Event { (f: Option<Err>) => Primary(attempt, f) }

  function SecondaryEvent(position: nat): Option<Err> -> Event { (f: Option<Err>) => Secondary(position, f) }

  // ------------------------------------------------------------------- the two stages

  datatype Stage<V> = Done(value: V) | Failing(lastError: Option<Err>)

  function Attempts<V>(o: Oracle<V>, s: Settings<V>, log: seq<Event>, attempt: nat, last: Option<Err>): (seq<Event>, Stage<V>)
    decreases s.retries + 1 - attempt
  {
    if attempt > s.retries then (log, Failing(last))
    else
      var (log1, r) := Call(o, s, log, o.primary(attempt), PrimaryEvent(attempt));
      match r
      case Returned(v) => (log1, Done(v))
      case Threw(e) => if e.kind.RepairFailed? then (log1, Failing(Some(e))) else Attempts(o, s, log1, attempt + 1, Some(e))
  }

  function Key(step: Step, base: string): string { if step.Replay? then REPLAY_PREFIX + base else base }

  function Chain<V>(o: Oracle<V>, s: Settings<V>, log: seq<Event>, i: nat, last: Option<Err>): (seq<Event>, Stage<V>)
    requires i <= |s.order|
    decreases |s.order| - i
  {
    if i == |s.order| || s.order[i].Stop? then (log, Failing(last))
    else if !s.enabled(s.order[i]) then Chain(o, s, log, i + 1, last)
    else if s.order[i].SecondaryProvider? then
      if s.forcedDegraded || !s.hasSecondary then Chain(o, s, log, i + 1, last)
      else
        var (log1, r) := Call(o, s, log, o.secondary(i), SecondaryEvent(i));
        match r
        case Returned(v) => (log1, Done(v))
        case Threw(e) => Chain(o, s, log1, i + 1, Some(e))
    else if s.baseKey.None? then Chain(o, s, log, i + 1, last)
    else
      var key := Key(s.order[i], s.baseKey.value);
      match o.get(i, key)
      case Hit(v) => (log + [Looked(i, key)], Done(v))
      case _ => Chain(o, s, log + [Looked(i, key)], i + 1, last)
  }

  // ------------------------------------------------------------------- the whole call

  function TerminalReason(last: Option<Err>, forced: bool): string {
    if last.Some? && last.value.kind.RepairFailed? then "validation_repair_failed"
    else if forced then "forced_degraded"
    else if last.Some? && (last.value.kind.TimeoutNamed? || Contains(last.value.message, "timed out after")) then
      "primary_timeout"
    else "primary_failed"
  }

  const SKIPPED := Err(Plain, "skipped: forced_degraded kill switch active (RES-07)")

  function Conclude<V>(s: Settings<V>, stage: Stage<V>): Result<V> {
    match stage
    case Done(v) => Value(v)
    case Failing(last) =>
      Degraded(TerminalReason(last, s.forcedDegraded), if last.Some? then Some(last.value.message) else None)
  }

  function PrimaryStage<V>(o: Oracle<V>, s: Settings<V>): (seq<Event>, Stage<V>) {
    if s.forcedDegraded then ([], Failing(Some(SKIPPED))) else Attempts(o, s, [], 0, None)
  }

  /** The specification of one wrapped call: its log and its result. */
  function Run<V>(o: Oracle<V>, s: Settings<V>): (seq<Event>, Result<V>) {
    var (log, stage) := PrimaryStage(o, s);
    if stage.Done? then (log, Value(stage.value))
    else
      var (log1, end) := Chain(o, s, log, 0, stage.lastError);
      (log1, Conclude(s, end))
  }

  /** The engine: a loop over attempts, then a loop over the fallback chain. */
  method RunResilient<V>(o: Oracle<V>, s: Settings<V>) returns (log: seq<Event>, result: Result<V>)
    ensures (log, result) == Run(o, s)
  {
    log := [];
    var lastError: Option<Err> := None;
    if !s.forcedDegraded {
      var attempt: nat := 0;
      while attempt <= s.retries
        invariant Attempts(o, s, log, attempt, lastError) == PrimaryStage(o, s)
        decreases s.retries + 1 - attempt
      {
        var (next, r) := Call(o, s, log, o.primary(attempt), PrimaryEvent(attempt));
        log := next;
        if r.Returned? {
          return log, Value(r.value);
        }
        lastError := Some(r.error);
        if r.error.kind.RepairFailed? {
          break;
        }
        attempt := attempt + 1;
      }
    } else {
      lastError := Some(SKIPPED);
    }
    assert PrimaryStage(o, s) == (log, Failing(lastError));
    ghost var all := Chain(o, s, log, 0, lastError);
    for i := 0 to |s.order|
      invariant Chain(o, s, log, i, lastError) == all
    {
      if s.order[i].Stop? {
        break;
      }
      if s.enabled(s.order[i]) {
        if s.order[i].SecondaryProvider? {
          if !s.forcedDegraded && s.hasSecondary {
            var (next, r) := Call(o, s, log, o.secondary(i), SecondaryEvent(i));
            log := next;
            if r.Returned? {
              return log, Value(r.value);
            }
            lastError := Some(r.error);
          }
        } else if s.baseKey.Some? {
          var key := Key(s.order[i], s.baseKey.value);
          log := log + [Looked(i, key)];
          var hit := o.get(i, key);
          if hit.Hit? {
            return log, Value(hit.value);
          }
        }
      }
    }
    result := Degraded(TerminalReason(lastError, s.forcedDegraded),
                       if lastError.Some? then Some(lastError.value.message) else None);
  }
}
