/** The Q&A sheet as Markdown: the printer (ideation/faqdef/sheet.ts) and the tolerant parser
    (ideation/faqdef/rehearse.ts), character by character. */
module QaSheet {
  import opened Sequences
  import opened Text
  import opened StepIds

  datatype Entry = Entry(id: string, question: string, tags: seq<string>, draftAnswer: string,
                         citations: seq<string>, grounding: string)

  datatype Sheet = Sheet(generatedAt: string, questionCount: nat, questions: seq<Entry>)

  const DASH := '\U{2014}'
  const DOT := '\U{00B7}'
  const UNVERIFIED := "WARNING: Unverified " + [DASH] + " "
  const NOT_STATED := "not_stated"

  // ------------------------------------------------------------------- the printer

  function Header(q: Entry): string {
    "## " + q.id + " [" + Join(q.tags, " + ") + "] " + [DASH] + " grounded: " + q.grounding
  }

  function AnswerLine(q: Entry): string {
    (if q.grounding == NOT_STATED then UNVERIFIED else "") + "A: " + q.draftAnswer
  }

  function SourceLines(q: Entry): seq<string> {
    if q.citations == [] then [] else ["", "Sources: " + Join(q.citations, [' ', DOT, ' '])]
  }

  function QuestionLines(q: Entry): seq<string> {
    [Header(q), "", "Q: " + q.question, "", AnswerLine(q)] + SourceLines(q) + [""]
  }

  function AllLines(questions: seq<Entry>): seq<string> {
    if questions == [] then [] else AllLines(questions[..|questions| - 1]) + QuestionLines(questions[|questions| - 1])
  }

  function Scope(): string { "grounded in winning_project_plan.md" + " / manifest / PROV disclosure only." }

  function Summary(s: Sheet): string {
    s.generatedAt + [' ', DOT, ' '] + (Decimal(s.questionCount) + (" questions" + [' ', DOT, ' '] + Scope()))
  }

  function Preamble(s: Sheet): seq<string> {
    ["# Judge Q&A Defense Sheet", "", "Generated " + Summary(s), ""]
  }

  /** Lines, each ended by a line break. */
  function Unlines(lines: seq<string>): string {
    if lines == [] then "" else lines[0] + "\n" + Unlines(lines[1..])
  }

  function Rendered(s: Sheet): string { Unlines(Preamble(s) + AllLines(s.questions)) }

  lemma {:induction false} JoinUnlines(lines: seq<string>)
    requires lines != []
    ensures Join(lines, "\n") + "\n" == Unlines(lines)
  {
    if |lines| == 1 {
      assert lines[1..] == [];
    } else {
      JoinUnlines(lines[1..]);
    }
  }

  method PushQuestion(lines: seq<string>, q: Entry) returns (more: seq<string>)
    ensures more == lines + QuestionLines(q)
  {
    hide Header;
    hide AnswerLine;
    hide Join;
    more := lines + [Header(q), "", "Q: " + q.question, "", AnswerLine(q)];
    if |q.citations| > 0 {
      more := more + ["", "Sources: " + Join(q.citations, [' ', DOT, ' '])];
    }
    more := more + [""];
  }

  /** `renderSheetMarkdown`: lines are pushed one by one and joined at the end. */
  method RenderSheetMarkdown(s: Sheet) returns (md: string)
    ensures md == Rendered(s)
  {
    hide Join;
    hide Unlines;
    hide QuestionLines;
    var lines := Preamble(s);
    for i := 0 to |s.questions|
      invariant lines == Preamble(s) + AllLines(s.questions[..i])
    {
      assert s.questions[..i + 1][..i] == s.questions[..i];
      lines := PushQuestion(lines, s.questions[i]);
    }
    assert s.questions[..|s.questions|] == s.questions;
    JoinUnlines(lines);
    md := Join(lines, "\n") + "\n";
  }

  // ------------------------------------------------------------------- the parser's regular expressions

  /** The characters `.` does not match and after which `^` matches in multiline mode. */
  predicate LineBreak(c: char) { c == '\n' || c == '\r' || c == '\U{2028}' || c == '\U{2029}' }

  /** `split(/^## /m)`: `bol` says that the current position starts a line. */
  function Pieces(s: string, current: string, bol: bool): (r: seq<string>)
    ensures r != []
    decreases |s|
  {
    if s == [] then [current]
    else if bol && "## " <= s then [current] + Pieces(s[3..], "", false)
    else Pieces(s[1..], current + [s[0]], LineBreak(s[0]))
  }

  function UpToBreak(s: string): string {
    if s == [] || LineBreak(s[0]) then "" else [s[0]] + UpToBreak(s[1..])
  }

  /** `prefix(.+)$` at one position. */
  function LineWith(prefix: string): string -> Option<string> {
    (s: string) =>
      if prefix <= s && |prefix| < |s| && !LineBreak(s[|prefix|]) then Some(UpToBreak(s[|prefix|..])) else None
  }

  function AnswerAt(): string -> Option<string> {
    (s: string) =>
      var flagged := LineWith(UNVERIFIED + "A: ")(s);
      if flagged.Some? then flagged else LineWith("A: ")(s)
  }

  /** The first match of a pattern that is anchored to the start of a line. */
  function FindFirst(s: string, bol: bool, at: string -> Option<string>): Option<string> {
    if s == [] then None
    else if bol && at(s).Some? then at(s)
    else FindFirst(s[1..], LineBreak(s[0]), at)
  }

  predicate WordChar(c: char) { 'a' <= c <= 'z' || 'A' <= c <= 'Z' || '0' <= c <= '9' || c == '_' }

  function TakeWord(s: string): string {
    if s == [] || !WordChar(s[0]) then "" else [s[0]] + TakeWord(s[1..])
  }

  /** `grounded:\s*(\w+)`. */
  function FindGrounding(s: string): Option<string> {
    if s == [] then None
    else if "grounded:" <= s && TakeWord(TrimStart(s[9..])) != "" then Some(TakeWord(TrimStart(s[9..])))
    else FindGrounding(s[1..])
  }

  predicate ShortId(s: string) {
    |s| == 4 && (s[0] == 'q' || s[0] == 'Q') && s[1] == '-' && IsDigit(s[2]) && IsDigit(s[3])
  }

  /** `\((q-\d{2})\)`, ignoring case. */
  function ParenId(s: string): Option<string> {
    if |s| < 6 then None
    else if s[0] == '(' && ShortId(s[1..5]) && s[5] == ')' then Some(s[1..5])
    else ParenId(s[1..])
  }

  /** The first piece of `split(/\s|\[/)`. */
  function LeadToken(s: string): string {
    if s == [] || IsSpace(s[0]) || s[0] == '[' then "" else [s[0]] + LeadToken(s[1..])
  }

  /** `^[\w-]*q-\d{2}$`, ignoring case. */
  function LeadId(t: string): Option<string> {
    if |t| >= 4 && ShortId(t[|t| - 4..]) && (forall i :: 0 <= i < |t| - 4 ==> WordChar(t[i]) || t[i] == '-') then Some(t)
    else None
  }

  function IdOf(headLeft: string): string {
    var paren := ParenId(headLeft);
    var lead := LeadId(Trim(LeadToken(headLeft)));
    Lower(if paren.Some? then paren.value else if lead.Some? then lead.value else "")
  }

  /** `\[([^\]]*)\]`. */
  function Bracket(s: string): Option<string> {
    if s == [] then None
    else if s[0] == '[' && IndexOf(s[1..], ']') >= 0 then Some(s[1..][..IndexOf(s[1..], ']')])
    else Bracket(s[1..])
  }

  function NonEmpty(): string -> bool { (t: string) => t != "" }

  function RemoveParenIds(s: string): string {
    if |s| < 6 then s
    else if s[0] == '(' && ShortId(s[1..5]) && s[5] == ')' then RemoveParenIds(s[6..])
    else [s[0]] + RemoveParenIds(s[1..])
  }

  /** `split(/[\s\/]+/)`, the empty pieces left to the filter. */
  function Words(s: string): (r: seq<string>)
    ensures r != []
  {
    if s == [] then [""]
    else
      var rest := Words(s[1..]);
      if IsSpace(s[0]) || s[0] == '/' then [""] + rest else [[s[0]] + rest[0]] + rest[1..]
  }

  function SlugChar(): char -> bool { (c: char) => 'a' <= c <= 'z' || '0' <= c <= '9' || c == '_' || c == '-' }

  function Slug(): string -> string { (t: string) => Filter(Lower(Trim(t)), SlugChar()) }

  function RealTag(): string -> bool { (t: string) => t != "" && t != "sponsor-track" && t != "placeholder" }

  function TagsIn(headLeft: string): seq<string> {
    var bracket := Bracket(headLeft);
    if bracket.Some? && bracket.value != "" then Filter(Map(SplitOn(bracket.value, '+'), Trim), NonEmpty())
    else Filter(Map(Words(RemoveParenIds(headLeft)), Slug()), RealTag())
  }

  // ------------------------------------------------------------------- the parser

  /** The citations of a block: the sources line, or a marker when nothing is stated. */
  function Citations(sources: Option<string>, grounding: Option<string>): seq<string> {
    if sources.Some? then Map(SplitOn(sources.value, DOT), Trim)
    else if grounding == Some(NOT_STATED) then [NOT_STATED]
    else []
  }

  /** The entry of a block, from what the patterns found in it. */
  function EntryFrom(headLeft: string, grounding: Option<string>, question: Option<string>, answer: Option<string>,
                     sources: Option<string>): Option<Entry>
  {
    var id := IdOf(headLeft);
    if question.None? || id == "" then None
    else Some(Entry(id, Trim(question.value), TagsIn(headLeft), if answer.Some? then Trim(answer.value) else "",
                    Citations(sources, grounding), if grounding.Some? then grounding.value else NOT_STATED))
  }

  function QuestionIn(block: string): Option<string> { FindFirst(block, true, LineWith("Q: ")) }

  function AnswerIn(block: string): Option<string> { FindFirst(block, true, AnswerAt()) }

  function SourcesIn(block: string): Option<string> { FindFirst(block, true, LineWith("Sources: ")) }

  function ParseBlock(block: string): Option<Entry> {
    var dash := IndexOf(block, DASH);
    if dash < 0 then None
    else EntryFrom(Trim(block[..dash]), FindGrounding(block[dash..]), QuestionIn(block), AnswerIn(block), SourcesIn(block))
  }

  function ParseBlocks(blocks: seq<string>): seq<Entry> {
    if blocks == [] then []
    else
      var e := ParseBlock(blocks[|blocks| - 1]);
      ParseBlocks(blocks[..|blocks| - 1]) + if e.Some? then [e.value] else []
  }

  function Parsed(md: string): seq<Entry> { ParseBlocks(Pieces(md, "", true)[1..]) }

  /** `parseMarkdownSheet`. */
  method ParseMarkdownSheet(md: string) returns (entries: seq<Entry>)
    ensures entries == Parsed(md)
  {
    entries := [];
    var blocks := Pieces(md, "", true)[1..];
    for i := 0 to |blocks|
      invariant entries == ParseBlocks(blocks[..i])
    {
      assert blocks[..i + 1][..i] == blocks[..i];
      var e := ParseBlock(blocks[i]);
      if e.None? {
        continue;
      }
      entries := entries + [e.value];
    }
    assert blocks[..|blocks|] == blocks;
  }
}
