/** What a parsed candidate is: one file's diff, valid by the schema, with a tag of its own. */
module DiffShape {
  import opened Sequences
  import opened Text
  import opened Gate
  import opened StepIds
  import opened Diffs
  import Orchestrator
  import RunSandbox
  import RunView
  import Sandbox

  // ------------------------------------------------------------------- well-formed diffs

  /** Hunk lines of a single file: at least one hunk header, no second file, no line break. */
  ghost predicate HunkBody(body: seq<string>) {
    && (forall line :: line in body ==> '\n' !in line && '\r' !in line && InHunk(line) && !("--- a/" <= line) && !("+++ b/" <= line))
    && (exists line :: line in body && "@@ " <= line)
  }

  /** A hunk header, an added, removed or context line, a marker, or an empty line. */
  ghost predicate InHunk(line: string) { "@@ " <= line || line == "" || line[0] in {'+', '-', ' ', '\\'} }

  lemma HunkLineExactly(line: string)
    ensures HunkLine(line) <==> InHunk(line)
    ensures FileHeader(line) <==> "--- a/" <= line || "+++ b/" <= line
  {
  }

  function OneFile(file: string, body: seq<string>): seq<string> { ["--- a/" + file, "+++ b/" + file] + body }

  lemma {:induction false} AllHunkLines(lines: seq<string>, k: nat)
    requires k <= |lines| && forall j :: k <= j < |lines| ==> HunkLine(lines[j])
    ensures FirstBad(lines, k) == |lines|
    decreases |lines| - k
  {
    if k < |lines| {
      AllHunkLines(lines, k + 1);
    }
  }

  /** The check on lines, for the two header lines of a file and any body. */
  lemma LinesExact(lines: seq<string>, file: string)
    requires lines != [] && forall line :: line in lines ==> '\n' !in line
    ensures CheckLines(lines, file).ok <==>
      |lines| >= 2 && lines == OneFile(file, lines[2..]) && '\r' !in file && HunkBody(lines[2..])
  {
    forall line
      ensures HunkLine(line) <==> InHunk(line)
      ensures FileHeader(line) <==> "--- a/" <= line || "+++ b/" <= line
    {
      HunkLineExactly(line);
    }
    hide HunkLine;
    hide FileHeader;
    hide InHunk;
    hide Decimal;
    if CheckLines(lines, file).ok {
      var body := lines[2..];
      assert lines == OneFile(file, body);
      assert NoReturn(lines[0]) && lines[0] == "--- a/" + file;
      forall line | line in body
        ensures '\n' !in line && '\r' !in line && InHunk(line) && !("--- a/" <= line) && !("+++ b/" <= line)
      {
        var i :| 0 <= i < |body| && body[i] == line;
        assert line == lines[i + 2] && line in lines && NoReturn(lines[i + 2]);
      }
      var k :| 2 <= k < |lines| && "@@ " <= lines[k];
      assert body[k - 2] == lines[k] && lines[k] in body;
    } else if |lines| >= 2 && lines == OneFile(file, lines[2..]) && '\r' !in file && HunkBody(lines[2..]) {
      BodyPasses(lines, file);
      assert false;
    }
  }

  lemma BodyPasses(lines: seq<string>, file: string)
    requires |lines| >= 2 && lines == OneFile(file, lines[2..]) && '\r' !in file && HunkBody(lines[2..])
    ensures CheckLines(lines, file).ok
  {
    forall line
      ensures HunkLine(line) <==> InHunk(line)
      ensures FileHeader(line) <==> "--- a/" <= line || "+++ b/" <= line
    {
      HunkLineExactly(line);
    }
    hide HunkLine;
    hide FileHeader;
    hide InHunk;
    hide Decimal;
    var body := lines[2..];
    assert lines[0] == "--- a/" + file && lines[1] == "+++ b/" + file;
    assert forall j :: 2 <= j < |lines| ==> lines[j] == body[j - 2] && lines[j] in body;
    forall k | 0 <= k < |lines|
      ensures NoReturn(lines[k])
    {
      if k < 2 {
        assert '\r' !in "--- a/" && '\r' !in "+++ b/";
      }
    }
    AllHunkLines(lines, 2);
    var line :| line in body && "@@ " <= line;
    var i :| 0 <= i < |body| && body[i] == line;
    assert "@@ " <= lines[i + 2];
  }

  /** A diff passes the check exactly when it is the two header lines of the expected file followed
      by hunk lines of that one file, joined by line feeds, without a carriage return. */
  lemma WellFormedExact(diff: string, file: string)
    ensures CheckDiff(diff, file).ok <==>
      '\n' !in file && '\r' !in file &&
      exists body: seq<string> :: HunkBody(body) && diff == Join(OneFile(file, body), "\n")
  {
    if CheckDiff(diff, file).ok {
      PassingBody(diff, file);
    }
    hide CheckDiff;
    hide HunkBody;
    hide Join;
    hide OneFile;
    if '\n' !in file && '\r' !in file {
      forall body: seq<string> | HunkBody(body) && diff == Join(OneFile(file, body), "\n")
        ensures CheckDiff(diff, file).ok
      {
        BodyIsPassing(diff, file, body);
      }
    }
  }

  lemma PassingBody(diff: string, file: string)
    requires CheckDiff(diff, file).ok
    ensures '\n' !in file && '\r' !in file
    ensures exists body: seq<string> :: HunkBody(body) && diff == Join(OneFile(file, body), "\n")
  {
    ChecksLines(diff, file);
    hide *;
    var lines := SplitOn(diff, '\n');
    SplitPieces(diff, '\n');
    LinesExact(lines, file);
    FileOfHeader(lines, file, lines[2..]);
  }

  lemma ChecksLines(diff: string, file: string)
    ensures CheckDiff(diff, file) == CheckLines(SplitOn(diff, '\n'), file)
  {
  }

  lemma FileOfHeader(lines: seq<string>, file: string, body: seq<string>)
    requires lines == OneFile(file, body) && forall line :: line in lines ==> '\n' !in line
    ensures '\n' !in file
  {
    assert lines[0] == "--- a/" + file && lines[0] in lines;
    NotInSuffix("--- a/", file, '\n');
  }

  lemma BodyIsPassing(diff: string, file: string, body: seq<string>)
    requires '\n' !in file && '\r' !in file && HunkBody(body) && diff == Join(OneFile(file, body), "\n")
    ensures CheckDiff(diff, file).ok
  {
    OneFileLines(file, body);
    assert |OneFile(file, body)| >= 2 && OneFile(file, body)[2..] == body;
    hide OneFile;
    hide HunkBody;
    SplitJoin(OneFile(file, body), '\n');
    LinesExact(OneFile(file, body), file);
    hide CheckLines;
    hide SplitOn;
    hide Join;
  }

  lemma NotInSuffix(a: string, b: string, c: char)
    requires c !in a + b
    ensures c !in b
  {
    assert forall i :: 0 <= i < |b| ==> (a + b)[i + |a|] == b[i];
  }

  lemma OneFileLines(file: string, body: seq<string>)
    requires '\n' !in file && HunkBody(body)
    ensures forall line :: line in OneFile(file, body) ==> '\n' !in line
  {
    assert '\n' !in "--- a/" && '\n' !in "+++ b/";
    assert '\n' !in "--- a/" + file && '\n' !in "+++ b/" + file;
  }

  /** No carriage return, and the two headers of the file. */
  ghost predicate Headed(lines: seq<string>, file: string) {
    && (forall k :: 0 <= k < |lines| ==> '\r' !in lines[k])
    && |lines| >= 2 && lines[0] == "--- a/" + file && lines[1] == "+++ b/" + file
  }

  /** The reason given for a diff without proper headers is the first of these. */
  lemma HeaderReason(diff: string, file: string)
    ensures var lines, r := SplitOn(diff, '\n'), CheckDiff(diff, file).reason;
      if exists k :: 0 <= k < |lines| && '\r' in lines[k] then r == "CRLF endings present"
      else if lines[0] != "--- a/" + file then r == "first header mismatch"
      else if |lines| == 1 || lines[1] != "+++ b/" + file then r == "second header mismatch"
      else Headed(lines, file)
  {
    var lines := SplitOn(diff, '\n');
    assert forall line :: NoReturn(line) <==> '\r' !in line;
    hide NoReturn;
    hide FirstBad;
    hide Decimal;
    hide SplitOn;
    hide HunkLine;
    hide HasHunk;
    hide SecondFile;
  }

  /** For one with headers it is the first line that no hunk may hold, a second file, or no hunk. */
  lemma BodyReason(diff: string, file: string)
    requires Headed(SplitOn(diff, '\n'), file)
    ensures var lines, r := SplitOn(diff, '\n'), CheckDiff(diff, file).reason;
      if exists k :: 2 <= k < |lines| && !InHunk(lines[k]) then
        exists k :: 2 <= k < |lines| && !InHunk(lines[k]) && (forall j :: 2 <= j < k ==> InHunk(lines[j])) && r == "bad hunk line " + Decimal(k)
      else if exists k :: 2 <= k < |lines| && ("--- a/" <= lines[k] || "+++ b/" <= lines[k]) then r == "multi-file diff"
      else if forall k :: 2 <= k < |lines| ==> !("@@ " <= lines[k]) then r == "no hunks"
      else r == "well-formed"
  {
    var lines := SplitOn(diff, '\n');
    forall line
      ensures HunkLine(line) <==> InHunk(line)
      ensures FileHeader(line) <==> "--- a/" <= line || "+++ b/" <= line
    {
      HunkLineExactly(line);
    }
    assert forall k :: 0 <= k < |lines| ==> NoReturn(lines[k]);
    hide HunkLine;
    hide FileHeader;
    hide InHunk;
    hide NoReturn;
    hide Decimal;
    hide SplitOn;
    if FirstBad(lines, 2) == |lines| {
      assert forall k :: 2 <= k < |lines| ==> HunkLine(lines[k]);
    }
  }

  // ------------------------------------------------------------------- parsed candidates

  /** The step ids that the schemas admit. */
  lemma StepNamesExactly(id: string)
    ensures StepName(id) <==>
      id in {"step-1", "step-2", "step-3", "step-4", "step-5", "step-6", "step-7", "step-8"}
  {
    assert "step-1" == "step-" + ['1'] && "step-2" == "step-" + ['2'] && "step-3" == "step-" + ['3'] && "step-4" == "step-" + ['4'];
    assert "step-5" == "step-" + ['5'] && "step-6" == "step-" + ['6'] && "step-7" == "step-" + ['7'] && "step-8" == "step-" + ['8'];
    assert forall d: char :: ("step-" + [d])[..5] == "step-";
    if StepName(id) {
      assert id == id[..5] + [id[5]];
    }
  }

  /** The schema of a candidate, field by field. */
  ghost predicate CandidateByField(c: Candidate) {
    StepName(c.stepId) && c.file != "" && c.unifiedDiff != "" && c.rationale != ""
  }

  /** The schema of a plan, field by field: one to eight steps. */
  ghost predicate PlanByField(p: Plan) {
    && p.summary != "" && |p.steps| in {1, 2, 3, 4, 5, 6, 7, 8}
    && forall step :: step in p.steps ==> StepName(step.id) && step.file != "" && step.intent != "" && step.acceptance != ""
  }

  /** Whatever the model and the repair model wrote, the repair model is asked at most once, and
      exactly when the first text is not JSON or is `null`; without a repair the value judged is the
      one that was read. */
  lemma OneRepair(read: string -> Json, repair: string -> RepairReply, raw: string)
    ensures var (repairs, r) := ReadAnswer(read, repair, raw);
      var first := read(StripCodeFences(raw));
      && repairs == (if first.Unreadable? || first.Null? then 1 else 0)
      && (repairs == 0 ==> r == Parsed(first))
      && (r.Parsed? ==> !r.value.Unreadable? && exists text :: r.value == read(text))
  {
    hide StripCodeFences;
    var (_, r) := ReadAnswer(read, repair, raw);
    if r.Parsed? {
      var reply := repair(StripCodeFences(raw));
      assert r.value == read(StripCodeFences(raw)) || (reply.RepairText? && r.value == read(StripCodeFences(reply.text)));
    }
  }

  /** A value is accepted as a candidate exactly when it obeys the schema and is one file's diff;
      then it names a file, holds a diff, and its branch tag is never the baseline tag. A value that
      breaks the schema is refused for that, any other with the reason of the line check. */
  lemma AcceptedCandidates(j: Json, trace: string)
    ensures JudgeCandidate(j).Parsed? <==>
      j.CandidateFields? && CandidateByField(j.candidate) &&
      '\n' !in j.candidate.file && '\r' !in j.candidate.file &&
      exists body: seq<string> :: HunkBody(body) && j.candidate.unifiedDiff == Join(OneFile(j.candidate.file, body), "\n")
    ensures JudgeCandidate(j).Parsed? ==>
      var c := JudgeCandidate(j).value;
      c == j.candidate && c.file != "" && c.unifiedDiff != "" &&
      Sandbox.BranchTag(trace, c.stepId) != Sandbox.BaselineTag(trace)
    ensures !(j.CandidateFields? && CandidateByField(j.candidate)) ==> JudgeCandidate(j) == Refused(SchemaError)
    ensures JudgeCandidate(j).Refused? && j.CandidateFields? && CandidateByField(j.candidate) ==>
      JudgeCandidate(j).why == NotWellFormed(CheckDiff(j.candidate.unifiedDiff, j.candidate.file).reason)
  {
    hide CheckDiff;
    hide HunkBody;
    if j.CandidateFields? {
      WellFormedExact(j.candidate.unifiedDiff, j.candidate.file);
      if SchemaOk(j.candidate) {
        Sandbox.BranchTagIsNotBaseline(trace, j.candidate.stepId);
      }
    }
    hide Join;
  }

  /** The explicit limit of eight steps after the schema check never refuses a plan; the schema does
      not ask for distinct step ids. */
  lemma AcceptedPlans(j: Json)
    ensures JudgePlan(j).Parsed? <==> j.PlanFields? && PlanByField(j.plan)
    ensures JudgePlan(j).Parsed? ==> JudgePlan(j).value == j.plan
    ensures JudgePlan(j) != Refused(TooManySteps)
    ensures var step := PlanStep("step-1", "f", "i", "a"); JudgePlan(PlanFields(Plan("s", [step, step]))).Parsed?
  {
  }

  /** The schema discharges what the run theorems ask of candidates: every draft names a file and
      holds a diff, and no branch tag is the baseline tag. It does not make the candidate ids of
      different plan steps differ. */
  lemma SchemaDischarges(o: Orchestrator.Oracle, site: RunSandbox.Site)
    requires forall n, second :: Orchestrator.Attempted(o, n, second).Some? ==> SchemaOk(Orchestrator.Attempted(o, n, second).value)
    ensures RunView.NonEmptyDrafts(o) && RunSandbox.SparesBaseline(o, site)
  {
    hide Orchestrator.Attempted;
    forall n, second | Orchestrator.Attempted(o, n, second).Some?
      ensures Sandbox.BranchTag(site.trace, Orchestrator.Attempted(o, n, second).value.stepId) != Sandbox.BaselineTag(site.trace)
    {
      assert SchemaOk(Orchestrator.Attempted(o, n, second).value);
      Sandbox.BranchTagIsNotBaseline(site.trace, Orchestrator.Attempted(o, n, second).value.stepId);
    }
    hide Sandbox.BranchTag;
    hide Sandbox.BaselineTag;
  }

  // ------------------------------------------------------------------- fences

  lemma {:induction false} TrimStartBreak(s: string)
    ensures TrimStart(s + "\n") == if TrimStart(s) == "" then "" else TrimStart(s) + "\n"
  {
    if s == "" {
      assert "\n"[1..] == "";
    } else {
      assert (s + "\n")[1..] == s[1..] + "\n";
      TrimStartBreak(s[1..]);
    }
  }

  lemma TrimBreak(s: string)
    ensures Trim(s + "\n") == Trim(s)
  {
    TrimStartBreak(s);
    var t := TrimStart(s);
    assert (t + "\n")[..|t|] == t;
    hide TrimStart;
  }

  lemma FirstLineDrops(language: string, rest: string)
    requires '\n' !in language
    ensures DropFirstLine(FENCE + language + "\n" + rest) == rest
  {
    var first := FENCE + language;
    var raw := first + "\n" + rest;
    assert '\n' !in FENCE;
    IndexOfAt(first, '\n', rest);
    assert raw == first + ['\n'] + rest;
    assert raw[..3] == FENCE && raw[|first| + 1..] == rest;
    hide IndexOf;
  }

  /** Stripping, for any text: a text without an opening fence keeps all its lines; one whose opening
      fence stands on its only line loses everything; any other loses the line of the fence. A
      closing fence at the very end goes too, and white space around what is left. */
  lemma StripExactly(raw: string) returns (first: string, body: string)
    ensures var s := Trim(raw);
      && (if !("```" <= s) then body == s
          else if '\n' !in s then body == ""
          else s == first + "\n" + body && '\n' !in first)
      && StripCodeFences(raw) ==
           Trim(if |body| >= 3 && body[|body| - 3..] == "```" then body[..|body| - 3] else body)
  {
    hide Trim;
    var s := Trim(raw);
    first, body := "", DropFirstLine(s);
    if FENCE <= s && '\n' in s {
      var k := IndexOf(s, '\n');
      IndexOfFirst(s, '\n');
      first := s[..k];
      assert s == first + "\n" + s[k + 1..];
    } else if FENCE <= s {
      IndexOfFirst(s, '\n');
    }
    hide DropFirstLine;
    hide IndexOf;
  }

  lemma {:induction false} IndexOfFirst(s: string, c: char)
    ensures IndexOf(s, c) < 0 <==> c !in s
    ensures c in s ==> IndexOf(s, c) < |s| && s[IndexOf(s, c)] == c && c !in s[..IndexOf(s, c)]
  {
    if s != "" && s[0] != c {
      IndexOfFirst(s[1..], c);
      if c in s[1..] {
        var k := IndexOf(s[1..], c);
        assert s[..k + 1] == [s[0]] + s[1..][..k];
      }
    }
  }

  /** Wrapping any text in a fence and stripping the fence gives the trimmed text back, whatever
      the text contains and whatever language the fence names. */
  lemma FenceThenStrip(language: string, body: string)
    requires '\n' !in language
    ensures StripCodeFences(FENCE + language + "\n" + body + "\n" + FENCE) == Trim(body)
  {
    hide Trim;
    hide DropFirstLine;
    hide LastFence;
    var raw := FENCE + language + "\n" + body + "\n" + FENCE;
    assert raw[0] == '`' && raw[|raw| - 1] == '`';
    TrimFixed(raw);
    assert raw == FENCE + language + "\n" + (body + "\n" + FENCE);
    FirstLineDrops(language, body + "\n" + FENCE);
    FencedEnd(body);
    TrimBreak(body);
  }

  lemma FencedEnd(body: string)
    ensures var s := body + "\n" + FENCE; EndsWith(s, FENCE) && LastFence(s) == |s| - 3 && s[..|s| - 3] == body + "\n"
  {
    var s := body + "\n" + FENCE;
    assert s[|s| - 3..] == FENCE && s[..|s| - 3] == body + "\n";
  }
}
