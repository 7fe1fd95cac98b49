/** Step identifiers of the run's event stream (orchestrator/steps.ts) and the suffix
    parser the console uses to read them back (ui/selectors.ts). */
module StepIds {
  import opened Sequences

  datatype StepId =
    | Intake | Grounding | Baseline | ContextPack | Planning | Ledger | Pr
    | Draft(n: nat) | Verify(n: nat) | Redraft(n: nat) | Reverify(n: nat)

  const DRAFT := "draft-"
  const VERIFY := "verify-"
  const REDRAFT := "redraft-"
  const REVERIFY := "reverify-"

  function Digit(d: nat): char
    requires d < 10
  {
    ['0', '1', '2', '3', '4', '5', '6', '7', '8', '9'][d]
  }

  function Decimal(n: nat): string {
    if n < 10 then [Digit(n)] else Decimal(n / 10) + [Digit(n % 10)]
  }

  /** The wire text of a step id. */
  function Text(id: StepId): string {
    match id
    case Intake => "intake"
    case Grounding => "grounding"
    case Baseline => "baseline"
    case ContextPack => "context-pack"
    case Planning => "planning"
    case Ledger => "ledger"
    case Pr => "pr"
    case Draft(n) => DRAFT + Decimal(n)
    case Verify(n) => VERIFY + Decimal(n)
    case Redraft(n) => REDRAFT + Decimal(n)
    case Reverify(n) => REVERIFY + Decimal(n)
  }

  /** The wire texts of the numbered families. */
  lemma TextExactly(n: nat)
    ensures Text(Draft(n)) == "draft-" + Decimal(n) && Text(Verify(n)) == "verify-" + Decimal(n)
    ensures Text(Redraft(n)) == "redraft-" + Decimal(n) && Text(Reverify(n)) == "reverify-" + Decimal(n)
  {
    hide Decimal;
  }

  predicate IsDigit(c: char) { '0' <= c <= '9' }

  predicate AllDigits(s: string) {
    s != [] && forall i :: 0 <= i < |s| ==> IsDigit(s[i])
  }

  function ParseDecimal(s: string): nat
    requires forall i :: 0 <= i < |s| ==> IsDigit(s[i])
  {
    if s == [] then 0
    else
      assert IsDigit(s[|s| - 1]);
      10 * ParseDecimal(s[..|s| - 1]) + (s[|s| - 1] as int - '0' as int)
  }

  /** The number after `prefix`, when the rest of the id is all digits. */
  function ParseSuffixed(stepId: string, prefix: string): Option<nat> {
    if !(prefix <= stepId) then None
    else if !AllDigits(stepId[|prefix|..]) then None
    else Some(ParseDecimal(stepId[|prefix|..]))
  }

  lemma DigitValue(d: nat)
    requires d < 10
    ensures IsDigit(Digit(d)) && Digit(d) as int - '0' as int == d
  {
  }

  lemma {:induction false} DecimalRoundTrip(n: nat)
    ensures AllDigits(Decimal(n)) && ParseDecimal(Decimal(n)) == n
  {
    DigitValue(n % 10);
    hide Digit;
    if n < 10 {
      assert Decimal(n)[..0] == [];
    } else {
      DecimalRoundTrip(n / 10);
      assert Decimal(n)[..|Decimal(n)| - 1] == Decimal(n / 10);
    }
  }

  lemma ParseOwnPrefix(prefix: string, n: nat)
    ensures ParseSuffixed(prefix + Decimal(n), prefix) == Some(n)
  {
    DecimalRoundTrip(n);
    assert (prefix + Decimal(n))[|prefix|..] == Decimal(n);
  }

  lemma FirstChars(id: StepId)
    ensures Text(id) != []
    ensures Text(id)[0] == 'v' <==> id.Verify?
    ensures Text(id)[0] == 'd' <==> id.Draft?
    ensures Text(id)[0] == 'r' <==> id.Redraft? || id.Reverify?
  {
  }

  /** `draft-`, `verify-`, `redraft-` and `reverify-` are told apart by the parser: each
      prefix recognises exactly its own family and returns its number. */
  lemma ParseDecides(id: StepId)
    ensures ParseSuffixed(Text(id), VERIFY) == (if id.Verify? then Some(id.n) else None)
    ensures ParseSuffixed(Text(id), REVERIFY) == (if id.Reverify? then Some(id.n) else None)
    ensures ParseSuffixed(Text(id), DRAFT) == (if id.Draft? then Some(id.n) else None)
    ensures ParseSuffixed(Text(id), REDRAFT) == (if id.Redraft? then Some(id.n) else None)
  {
    FirstChars(id);
    match id
    case Draft(n) => ParseOwnPrefix(DRAFT, n);
    case Verify(n) => ParseOwnPrefix(VERIFY, n);
    case Redraft(n) =>
      ParseOwnPrefix(REDRAFT, n);
      assert Text(id)[2] == 'd' && REVERIFY[2] == 'v';
    case Reverify(n) =>
      ParseOwnPrefix(REVERIFY, n);
      assert Text(id)[2] == 'v' && REDRAFT[2] == 'd';
    case _ =>
  }
}
