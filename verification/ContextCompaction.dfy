/** The compaction slot and `fitWithCompaction` (context/extension.ts). The registered function is
    an adversary: it may fail, and it may return any buffer at all. */
module ContextCompaction {
  import opened Sequences
  import opened ContextBudget
  import opened ContextStrategies
  import opened ContextFit

  datatype When = Before | After | Instead

  /** `None` stands for an exception, a rejected promise or a result that is not an array. */
  type Compactor = seq<Message> -> Option<seq<Message>>

  datatype Registration = Registration(fn: Compactor, when: When, name: Option<string>)

  function Severity(w: Warning): nat {
    match w
    case Nothing => 0
    case Approaching => 1
    case Exceeded => 2
  }

  /** The explanation put on a status that has none. */
  function Why(reg: Registration, what: string): string {
    "compaction (" + (if reg.name.Some? then reg.name.value else "unlabeled") + what
  }

  function EagerFailure(when: When): string {
    if when.Instead? then ") failed/unavailable; mechanical strategy applied as safety net"
    else ") failed; mechanical strategy used"
  }

  function Annotate(r: FitResult, why: string): FitResult {
    if r.status.reason.Some? then r else FitResult(r.buffer, r.status.(reason := Some(why)))
  }

  /** Compaction must fit and do strictly better than the mechanical pass. */
  predicate Better(validated: FitResult, mechanical: FitResult) {
    && !validated.status.rejected && validated.status.total <= validated.status.budget as real
    && (Severity(validated.status.warning) < Severity(mechanical.status.warning) ||
        validated.status.evicted < mechanical.status.evicted)
  }

  function Eager(t: Counter, reg: Registration, b: seq<Message>, c: Config): FitResult {
    var out := reg.fn(b);
    if out.None? then
      Annotate(Fit(t, b, c), Why(reg, EagerFailure(reg.when)))
    else
      var validated := Fit(t, out.value, c);
      if !validated.status.rejected then validated
      else Annotate(Fit(t, b, c), Why(reg, ") output rejected; mechanical fallback applied"))
  }

  function Lazy(t: Counter, reg: Registration, b: seq<Message>, c: Config): FitResult {
    var mechanical := Fit(t, b, c);
    if !mechanical.status.truncated && mechanical.status.warning.Nothing? then mechanical
    else
      var out := reg.fn(b);
      if out.None? then
        Annotate(mechanical, Why(reg, ") failed after mechanical pass; mechanical result kept"))
      else if Better(Fit(t, out.value, c), mechanical) then Fit(t, out.value, c)
      else Annotate(mechanical, Why(reg, ") produced no improvement; mechanical result kept"))
  }

  function Compacting(t: Counter, reg: Option<Registration>, b: seq<Message>, c: Config): FitResult {
    if reg.None? then Fit(t, b, c)
    else if reg.value.when.After? then Lazy(t, reg.value, b, c)
    else Eager(t, reg.value, b, c)
  }

  class CompactionSlot {
    var registered: Option<Registration>

    constructor ()
      ensures registered == None
    {
      registered := None;
    }

    /** Registering null disables the slot; `when` defaults to "after". */
    method Register(fn: Option<Compactor>, when: Option<When>, name: Option<string>)
      modifies this
      ensures registered ==
        if fn.None? then None else Some(Registration(fn.value, if when.Some? then when.value else After, name))
    {
      if fn.None? {
        registered := None;
      } else {
        registered := Some(Registration(fn.value, if when.Some? then when.value else After, name));
      }
    }

    method FitWithCompaction(t: Counter, b: seq<Message>, c: Config) returns (r: FitResult)
      ensures r == Compacting(t, registered, b, c)
    {
      if registered.None? {
        r := FitBuffer(t, b, c);
        return;
      }
      var reg := registered.value;
      var compacted: Option<seq<Message>> := None;
      if reg.when.Before? || reg.when.Instead? {
        compacted := reg.fn(b);
      }
      if compacted.Some? {
        var validated := FitBuffer(t, compacted.value, c);
        if !validated.status.rejected {
          return validated;
        }
        r := FitBuffer(t, b, c);
        return Annotate(r, Why(reg, ") output rejected; mechanical fallback applied"));
      }
      var mechanical := FitBuffer(t, b, c);
      if !reg.when.After? {
        return Annotate(mechanical, Why(reg, EagerFailure(reg.when)));
      }
      if !mechanical.status.truncated && mechanical.status.warning.Nothing? {
        return mechanical;
      }
      compacted := reg.fn(b);
      if compacted.None? {
        return Annotate(mechanical,
          Why(reg, ") failed after mechanical pass; mechanical result kept"));
      }
      var validated := FitBuffer(t, compacted.value, c);
      if Better(validated, mechanical) {
        return validated;
      }
      r := Annotate(mechanical, Why(reg, ") produced no improvement; mechanical result kept"));
    }
  }

  // ------------------------------------------------------------------- safety

  /** The same result apart from an explanation added to a status that had none. */
  ghost predicate UpToReason(r: FitResult, plain: FitResult) {
    && r.buffer == plain.buffer
    && r.status.(reason := None) == plain.status.(reason := None)
    && (plain.status.reason.Some? ==> r.status.reason == plain.status.reason)
  }

  /** What a caller may rely on, whichever branch produced `r` from buffer `b`. */
  ghost predicate Safe(t: Counter, b: seq<Message>, c: Config, r: FitResult) {
    && Total(t.tok, r.buffer) == r.status.total
    && r.status.budget == InputBudget(t, c)
    && (r.status.total > r.status.budget as real ==> r.status.rejected)
    && (r.status.rejected ==> !Accepts(t, b, c) && r.buffer == Fit(t, b, c).buffer)
  }

  lemma AnnotatedIsSafe(t: Counter, b: seq<Message>, c: Config, why: string)
    requires Tokenizer(t.tok)
    ensures var r := Annotate(Fit(t, b, c), why); Safe(t, b, c, r) && UpToReason(r, Fit(t, b, c))
  {
    hide Fit;
    FitReports(t, b, c);
  }

  lemma AcceptedIsSafe(t: Counter, b: seq<Message>, out: seq<Message>, c: Config)
    requires Tokenizer(t.tok) && Accepts(t, out, c)
    ensures Safe(t, b, c, Fit(t, out, c))
  {
    hide Fit;
    FitReports(t, out, c);
  }

  /** For any compaction function and any mode: the result is a synchronous `fit` of the original
      or of the compacted buffer, it is over budget only when it says so, and it is rejected
      only if the mechanical fit of the original is. Without a function nothing changes. */
  lemma CompactionIsSafe(t: Counter, reg: Option<Registration>, b: seq<Message>, c: Config)
    requires Tokenizer(t.tok)
    ensures var r := Compacting(t, reg, b, c);
      && Safe(t, b, c, r)
      && (UpToReason(r, Fit(t, b, c)) ||
          (reg.Some? && reg.value.fn(b).Some? && r == Fit(t, reg.value.fn(b).value, c) && !r.status.rejected))
      && (reg.None? ==> r == Fit(t, b, c))
  {
    hide Fit;
    hide Safe;
    hide UpToReason;
    hide Annotate;
    hide Why;
    hide EagerFailure;
    forall why
      ensures Safe(t, b, c, Annotate(Fit(t, b, c), why)) && UpToReason(Annotate(Fit(t, b, c), why), Fit(t, b, c))
    {
      AnnotatedIsSafe(t, b, c, why);
    }
    PlainIsSafe(t, b, c);
    if reg.Some? && reg.value.fn(b).Some? && Accepts(t, reg.value.fn(b).value, c) {
      AcceptedIsSafe(t, b, reg.value.fn(b).value, c);
    }
  }

  lemma PlainIsSafe(t: Counter, b: seq<Message>, c: Config)
    requires Tokenizer(t.tok)
    ensures Safe(t, b, c, Fit(t, b, c)) && UpToReason(Fit(t, b, c), Fit(t, b, c))
  {
    hide Fit;
    FitReports(t, b, c);
  }

  lemma FitReports(t: Counter, b: seq<Message>, c: Config)
    requires Tokenizer(t.tok)
    ensures var r := Fit(t, b, c);
      && Total(t.tok, r.buffer) == r.status.total && r.status.budget == InputBudget(t, c)
      && (r.status.total > r.status.budget as real ==> r.status.rejected)
      && (r.status.rejected ==> r.status.warning == Exceeded && r.status.reason.Some? && !r.status.truncated)
  {
    if Accepts(t, b, c) {
      WithinBudget(t, b, c);
    } else {
      RejectedReport(t, b, c);
    }
    hide Fit;
    hide Total;
    hide InputBudget;
  }

  lemma RejectedReport(t: Counter, b: seq<Message>, c: Config)
    requires !Accepts(t, b, c)
    ensures var r := Fit(t, b, c);
      && Total(t.tok, r.buffer) == r.status.total && r.status.budget == InputBudget(t, c)
      && r.status.warning == Exceeded && r.status.reason.Some? && !r.status.truncated
  {
  }

  /** Compacting first never returns a rejection when the compacted buffer fits. Compacting last
      may: a rejected mechanical result is kept although the compacted buffer fits exactly when
      the compacted buffer is itself at the critical level and no fewer entries are lost. */
  lemma RejectedExactly(t: Counter, reg: Registration, b: seq<Message>, c: Config)
    requires Tokenizer(t.tok) && !Accepts(t, b, c)
    ensures var out := reg.fn(b);
      Compacting(t, Some(reg), b, c).status.rejected <==>
        || out.None?
        || !Accepts(t, out.value, c)
        || (reg.when.After?
            && Fit(t, out.value, c).status.warning == Exceeded
            && Fit(t, out.value, c).status.evicted >= Fit(t, b, c).status.evicted)
  {
    hide Fit;
    hide Total;
    hide InputBudget;
    hide Why;
    hide EagerFailure;
    FitReports(t, b, c);
    if reg.fn(b).Some? {
      FitReports(t, reg.fn(b).value, c);
    }
  }

  /** It happens: a message of eleven tokens against a budget of ten is compacted to one of ten,
      which `fit` accepts; in "after" mode the rejection stands. */
  lemma RejectionKept()
    ensures var b, out := [Sized(0, 11.0, false)], [Sized(1, 10.0, false)];
      var reg := Registration((x: seq<Message>) => Some(out), After, None);
      && !Accepts(Zero(), b, Ten()) && Accepts(Zero(), out, Ten())
      && Compacting(Zero(), Some(reg), b, Ten()).status.rejected
  {
    var m, small := Sized(0, 11.0, false), Sized(1, 10.0, false);
    var reg := Registration((x: seq<Message>) => Some([small]), After, None);
    TenTokens();
    OneMessage(Zero(), m);
    OneMessage(Zero(), small);
    RejectsExactly(Zero(), [m], Ten());
    RejectsExactly(Zero(), [small], Ten());
    assert Fit(Zero(), [m], Ten()).status.evicted == 0;
    assert Fit(Zero(), [small], Ten()).status.warning == Exceeded && Fit(Zero(), [small], Ten()).status.evicted == 0;
    hide Fit;
    RejectedExactly(Zero(), reg, [m], Ten());
  }

  /** What compaction comes to, mode by mode. Before or instead of the mechanical pass: the compacted
      buffer's fit when it is accepted, else the mechanical one with a reason. After it: the
      mechanical result alone when it lost nothing and is not hot; else the compacted one when it
      fits and is less severe or loses fewer entries; else the mechanical one with a reason. A
      reason that `fit` gave itself is kept. */
  lemma CompactsExactly(t: Counter, reg: Registration, b: seq<Message>, c: Config)
    ensures var r, m := Compacting(t, Some(reg), b, c), Fit(t, b, c);
      var named := "compaction (" + if reg.name.Some? then reg.name.value else "unlabeled";
      match reg.fn(b)
      case None =>
        if reg.when.After? && !m.status.truncated && m.status.warning.Nothing? then r == m
        else
          && r.buffer == m.buffer && r.status == m.status.(reason := r.status.reason)
          && r.status.reason == if m.status.reason.Some? then m.status.reason
               else Some(named + match reg.when
                                 case Before => ") failed; mechanical strategy used"
                                 case Instead => ") failed/unavailable; mechanical strategy applied as safety net"
                                 case After => ") failed after mechanical pass; mechanical result kept")
      case Some(out) =>
        var v := Fit(t, out, c);
        var better := if !reg.when.After? then !v.status.rejected
                      else
                        && !v.status.rejected && v.status.total <= v.status.budget as real
                        && (Severity(v.status.warning) < Severity(m.status.warning) || v.status.evicted < m.status.evicted);
        if reg.when.After? && !m.status.truncated && m.status.warning.Nothing? then r == m
        else if better then r == v
        else
          && r.buffer == m.buffer && r.status == m.status.(reason := r.status.reason)
          && r.status.reason == if m.status.reason.Some? then m.status.reason
               else Some(named + if reg.when.After? then ") produced no improvement; mechanical result kept"
                                 else ") output rejected; mechanical fallback applied")
  {
    hide Fit;
  }

  /** In "after" mode the result never loses more than the mechanical pass without being less
      severe, and a pass that lost nothing and is not hot never calls the function. */
  lemma AfterNeverWorse(t: Counter, reg: Registration, b: seq<Message>, c: Config)
    requires Tokenizer(t.tok) && reg.when.After?
    ensures var r, m := Compacting(t, Some(reg), b, c), Fit(t, b, c);
      && (UpToReason(r, m) || Severity(r.status.warning) < Severity(m.status.warning) || r.status.evicted < m.status.evicted)
      && (m.status.evicted == 0 && m.status.warning.Nothing? ==> r == m)
  {
    hide Fit;
    hide Total;
    hide InputBudget;
    hide Why;
    hide EagerFailure;
    FitReports(t, b, c);
    EvictedMeansTruncated(t, b, c);
    if reg.fn(b).Some? {
      FitReports(t, reg.fn(b).value, c);
    }
  }

  lemma EvictedMeansTruncated(t: Counter, b: seq<Message>, c: Config)
    ensures var s := Fit(t, b, c).status; s.truncated <==> !s.rejected && s.evicted > 0
  {
  }
}
