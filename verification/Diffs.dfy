/** What a model answer has satisfied before it is verified (mergeready/prompts/schemas.ts): code
    fences are stripped, the JSON is read with at most one repair, the schema is enforced and the
    diff is checked line by line. */
module Diffs {
  import opened Sequences
  import opened Text
  import opened Gate
  import opened StepIds
  import Sandbox

  // ------------------------------------------------------------------- code fences

  const FENCE := "```"

  predicate EndsWith(s: string, part: string) { |part| <= |s| && s[|s| - |part|..] == part }

  function LastFence(s: string): (i: int)
    ensures -1 <= i < |s|
  {
    if |s| < 3 then -1 else if EndsWith(s, FENCE) then |s| - 3 else LastFence(s[..|s| - 1])
  }

  function DropFirstLine(s: string): string {
    if !(FENCE <= s) then s else if IndexOf(s, '\n') < 0 then "" else s[IndexOf(s, '\n') + 1..]
  }

  function StripCodeFences(raw: string): string {
    var s := DropFirstLine(Trim(raw));
    Trim(if EndsWith(s, FENCE) && LastFence(s) >= 0 then s[..LastFence(s)] else s)
  }

  // ------------------------------------------------------------------- the line check

  datatype Check = Check(ok: bool, reason: string)

  /** The lines a hunk may hold: hunk headers, added, removed and context lines, the marker for a
      missing final newline, and empty lines. */
  predicate HunkLine(line: string) {
    "@@ " <= line || line == "" || line[0] == '+' || line[0] == '-' || line[0] == ' ' || line[0] == '\\'
  }

  predicate FileHeader(line: string) { "--- a/" <= line || "+++ b/" <= line }

  predicate NoReturn(line: string) { '\r' !in line }

  function FirstBad(lines: seq<string>, k: nat): (i: nat)
    requires k <= |lines|
    ensures k <= i <= |lines|
    ensures forall j :: k <= j < i ==> HunkLine(lines[j])
    ensures i < |lines| ==> !HunkLine(lines[i])
    decreases |lines| - k
  {
    if k < |lines| && HunkLine(lines[k]) then FirstBad(lines, k + 1) else k
  }

  predicate HasHunk(lines: seq<string>) { exists k :: 2 <= k < |lines| && "@@ " <= lines[k] }

  predicate SecondFile(lines: seq<string>) { exists k :: 2 <= k < |lines| && FileHeader(lines[k]) }

  /** The verdict on a diff, by what is wrong with its lines. */
  function CheckLines(lines: seq<string>, file: string): Check
    requires lines != []
  {
    if exists k :: 0 <= k < |lines| && !NoReturn(lines[k]) then Check(false, "CRLF endings present")
    else if lines[0] != "--- a/" + file then Check(false, "first header mismatch")
    else if |lines| < 2 || lines[1] != "+++ b/" + file then Check(false, "second header mismatch")
    else if FirstBad(lines, 2) < |lines| then Check(false, "bad hunk line " + Decimal(FirstBad(lines, 2)))
    else if SecondFile(lines) then Check(false, "multi-file diff")
    else if !HasHunk(lines) then Check(false, "no hunks")
    else Check(true, "well-formed")
  }

  function CheckDiff(diff: string, file: string): Check { CheckLines(SplitOn(diff, '\n'), file) }

  method ScanReturns(lines: seq<string>) returns (found: bool)
    ensures found <==> exists k :: 0 <= k < |lines| && !NoReturn(lines[k])
  {
    for i := 0 to |lines|
      invariant forall j :: 0 <= j < i ==> NoReturn(lines[j])
    {
      if '\r' in lines[i] {
        assert !NoReturn(lines[i]);
        return true;
      }
    }
    found := false;
  }

  /** `isWellFormedDiff`: three passes over the lines. */
  method IsWellFormedDiff(diff: string, expectedFile: string) returns (r: Check)
    ensures r == CheckDiff(diff, expectedFile)
  {
    var lines := SplitOn(diff, '\n');
    var carriage := ScanReturns(lines);
    if carriage {
      return Check(false, "CRLF endings present");
    }
    if lines[0] != "--- a/" + expectedFile {
      return Check(false, "first header mismatch");
    }
    if |lines| < 2 || lines[1] != "+++ b/" + expectedFile {
      return Check(false, "second header mismatch");
    }
    r := ScanHunks(lines, expectedFile);
  }

  method ScanHunks(lines: seq<string>, file: string) returns (r: Check)
    requires |lines| >= 2 && lines[0] == "--- a/" + file && lines[1] == "+++ b/" + file
    requires forall k :: 0 <= k < |lines| ==> NoReturn(lines[k])
    ensures r == CheckLines(lines, file)
  {
    hide Decimal;
    var seenHunk := false;
    for k := 2 to |lines|
      invariant seenHunk <==> exists j :: 2 <= j < k && "@@ " <= lines[j]
      invariant FirstBad(lines, 2) == FirstBad(lines, k)
    {
      if "@@ " <= lines[k] {
        seenHunk := true;
      } else if !HunkLine(lines[k]) {
        return Check(false, "bad hunk line " + Decimal(k));
      }
    }
    for k := 2 to |lines|
      invariant forall j :: 2 <= j < k ==> !FileHeader(lines[j])
    {
      if "--- a/" <= lines[k] || "+++ b/" <= lines[k] {
        assert FileHeader(lines[k]);
        return Check(false, "multi-file diff");
      }
    }
    r := if !seenHunk then Check(false, "no hunks") else Check(true, "well-formed");
  }

  // ------------------------------------------------------------------- reading an answer

  /** A JSON text that cannot be read, `null`, an object with exactly the fields of a candidate or
      of a plan, all of the right type, or any other value. */
  datatype Json = Unreadable(message: string) | Null | CandidateFields(candidate: Candidate)
                | PlanFields(plan: Plan) | OtherValue

  datatype Plan = Plan(summary: string, steps: seq<PlanStep>)

  datatype RepairReply = RepairDegraded | RepairText(text: string)

  datatype Failure = ParseError(message: string) | SchemaError | NotWellFormed(reason: string) | TooManySteps

  datatype Parse<T> = Parsed(value: T) | Refused(why: Failure)

  /** The schema's pattern `^step-[1-8]$`. */
  predicate StepName(id: string) { |id| == 6 && id[..5] == "step-" && '1' <= id[5] <= '8' }

  /** The schema of a candidate diff. */
  predicate SchemaOk(c: Candidate) { StepName(c.stepId) && c.file != "" && c.unifiedDiff != "" && c.rationale != "" }

  /** The schema of a patch plan. */
  predicate PlanOk(p: Plan) {
    && p.summary != "" && 1 <= |p.steps| <= 8
    && forall i :: 0 <= i < |p.steps| ==>
         StepName(p.steps[i].id) && p.steps[i].file != "" && p.steps[i].intent != "" && p.steps[i].acceptance != ""
  }

  /** The value read from an answer with at most one repair, and how often the repair model was
      asked. */
  function ReadAnswer(read: string -> Json, repair: string -> RepairReply, raw: string): (nat, Parse<Json>) {
    var first := read(StripCodeFences(raw));
    if !first.Unreadable? && !first.Null? then (0, Parsed(first))
    else
      match repair(StripCodeFences(raw))
      case RepairDegraded => (1, Refused(ParseError(if first.Unreadable? then first.message else "")))
      case RepairText(text) =>
        var second := read(StripCodeFences(text));
        (1, if second.Unreadable? then Refused(ParseError(second.message)) else Parsed(second))
  }

  function JudgeCandidate(j: Json): Parse<Candidate> {
    if !j.CandidateFields? || !SchemaOk(j.candidate) then Refused(SchemaError)
    else
      var check := CheckDiff(j.candidate.unifiedDiff, j.candidate.file);
      if check.ok then Parsed(j.candidate) else Refused(NotWellFormed(check.reason))
  }

  function JudgePlan(j: Json): Parse<Plan> {
    if !j.PlanFields? || !PlanOk(j.plan) then Refused(SchemaError)
    else if |j.plan.steps| > 8 then Refused(TooManySteps)
    else Parsed(j.plan)
  }

  method ReadWithRepair(read: string -> Json, repair: string -> RepairReply, raw: string) returns (repairs: nat, r: Parse<Json>)
    ensures (repairs, r) == ReadAnswer(read, repair, raw)
  {
    hide StripCodeFences;
    repairs := 0;
    var cleaned := StripCodeFences(raw);
    var parsed := read(cleaned);
    if parsed.Unreadable? || parsed.Null? {
      var parseError := if parsed.Unreadable? then parsed.message else "";
      var reply := repair(cleaned);
      repairs := 1;
      if reply.RepairDegraded? {
        return repairs, Refused(ParseError(parseError));
      }
      cleaned := StripCodeFences(reply.text);
      parsed := read(cleaned);
      if parsed.Unreadable? {
        return repairs, Refused(ParseError(parsed.message));
      }
    }
    r := Parsed(parsed);
  }

  /** `parseCandidateDiff`. */
  method ParseCandidateDiff(read: string -> Json, repair: string -> RepairReply, raw: string)
    returns (repairs: nat, r: Parse<Candidate>)
    ensures var (n, answer) := ReadAnswer(read, repair, raw);
      repairs == n && r == if answer.Refused? then Refused(answer.why) else JudgeCandidate(answer.value)
  {
    hide StripCodeFences;
    hide CheckDiff;
    var answer;
    repairs, answer := ReadWithRepair(read, repair, raw);
    if answer.Refused? {
      return repairs, Refused(answer.why);
    }
    var j := answer.value;
    if !j.CandidateFields? || !SchemaOk(j.candidate) {
      return repairs, Refused(SchemaError);
    }
    var check := IsWellFormedDiff(j.candidate.unifiedDiff, j.candidate.file);
    r := if check.ok then Parsed(j.candidate) else Refused(NotWellFormed(check.reason));
  }

  /** `parsePatchPlan`. */
  method ParsePatchPlan(read: string -> Json, repair: string -> RepairReply, raw: string) returns (repairs: nat, r: Parse<Plan>)
    ensures var (n, answer) := ReadAnswer(read, repair, raw);
      repairs == n && r == if answer.Refused? then Refused(answer.why) else JudgePlan(answer.value)
  {
    hide StripCodeFences;
    var answer;
    repairs, answer := ReadWithRepair(read, repair, raw);
    if answer.Refused? {
      return repairs, Refused(answer.why);
    }
    var j := answer.value;
    if !j.PlanFields? || !PlanOk(j.plan) {
      return repairs, Refused(SchemaError);
    }
    r := if |j.plan.steps| > 8 then Refused(TooManySteps) else Parsed(j.plan);
  }
}
