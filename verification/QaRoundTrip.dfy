/** Printing a Q&A sheet and parsing it back. */
module QaRoundTrip {
  import opened Sequences
  import opened Text
  import opened StepIds
  import opened QaSheet

  // ------------------------------------------------------------------- well-formed sheets

  ghost predicate OneLine(s: string) { forall i :: 0 <= i < |s| ==> !LineBreak(s[i]) }

  /** A non-empty trimmed text on one line. */
  ghost predicate Field(s: string) { s != "" && Trimmed(s) && OneLine(s) }

  ghost predicate GoodTag(t: string) { Field(t) && '+' !in t && ']' !in t && '(' !in t && DASH !in t }

  ghost predicate GoodCitation(c: string) { Field(c) && DOT !in c }

  ghost predicate GoodWord(g: string) { g != "" && forall i :: 0 <= i < |g| ==> WordChar(g[i]) }

  /** What the printer's separators demand of a question: an id `q-NN`, one-line fields without
      outer white space, at least one tag, and no separator inside a tag or a citation. */
  ghost predicate GoodEntry(q: Entry) {
    && ShortId(q.id) && q.id[0] == 'q'
    && q.tags != [] && (forall t :: t in q.tags ==> GoodTag(t))
    && Field(q.question) && Field(q.draftAnswer) && GoodWord(q.grounding)
    && forall c :: c in q.citations ==> GoodCitation(c)
  }

  ghost predicate GoodSheet(s: Sheet) { OneLine(s.generatedAt) && forall q :: q in s.questions ==> GoodEntry(q) }

  /** What comes back: an ungrounded answer without sources gets the marker as its source. */
  function Normal(q: Entry): Entry {
    if q.citations == [] && q.grounding == NOT_STATED then q.(citations := [NOT_STATED]) else q
  }

  // ------------------------------------------------------------------- splitting into blocks

  ghost predicate PlainLine(line: string) { OneLine(line) && !("## " <= line) }

  lemma LineIsNoHead(line: string, rest: string)
    requires !("## " <= line)
    ensures !("## " <= line + "\n" + rest)
  {
    var s := line + "\n" + rest;
    if |line| >= 3 {
      assert s[..3] == line[..3];
    } else {
      assert s[|line|] == '\n' && "## "[|line|] != '\n';
    }
  }

  /** A line without a heading is read into the current piece. */
  lemma {:induction false} PiecesLine(line: string, rest: string, current: string, bol: bool)
    requires OneLine(line) && (bol ==> !("## " <= line))
    ensures Pieces(line + "\n" + rest, current, bol) == Pieces(rest, current + line + "\n", true)
  {
    var s := line + "\n" + rest;
    if bol {
      LineIsNoHead(line, rest);
    }
    if line == "" {
      assert s[1..] == rest && current + "" == current;
    } else {
      assert s[1..] == line[1..] + "\n" + rest;
      PiecesLine(line[1..], rest, current + [line[0]], false);
      assert current + [line[0]] + line[1..] == current + line;
    }
  }

  lemma {:induction false} PiecesLines(lines: seq<string>, rest: string, current: string)
    requires forall line :: line in lines ==> PlainLine(line)
    ensures Pieces(Unlines(lines) + rest, current, true) == Pieces(rest, current + Unlines(lines), true)
  {
    hide Pieces;
    hide PlainLine;
    if lines == [] {
      assert Unlines(lines) + rest == rest && current + Unlines(lines) == current;
    } else {
      var line, more := lines[0], lines[1..];
      assert PlainLine(line);
      assert Unlines(lines) + rest == line + "\n" + (Unlines(more) + rest);
      OnePlain(line, Unlines(more) + rest, current);
      PiecesLines(more, rest, current + line + "\n");
      assert current + line + "\n" + Unlines(more) == current + Unlines(lines);
    }
  }

  lemma OnePlain(line: string, rest: string, current: string)
    requires PlainLine(line)
    ensures Pieces(line + "\n" + rest, current, true) == Pieces(rest, current + line + "\n", true)
  {
    PiecesLine(line, rest, current, true);
  }

  /** The text of a question after its heading mark. */
  function Body(q: Entry): string { Header(q)[3..] + "\n" + Unlines(QuestionLines(q)[1..]) }

  function Bodies(questions: seq<Entry>): seq<string> { Map(questions, Body) }

  lemma {:induction false} UnlinesConcat(a: seq<string>, b: seq<string>)
    ensures Unlines(a + b) == Unlines(a) + Unlines(b)
  {
    if a == [] {
      assert a + b == b;
    } else {
      UnlinesConcat(a[1..], b);
      assert (a + b)[1..] == a[1..] + b;
    }
  }

  lemma ConcatOneLine(a: string, b: string)
    ensures OneLine(a + b) <==> OneLine(a) && OneLine(b)
  {
    assert forall i :: 0 <= i < |a| ==> (a + b)[i] == a[i];
    assert forall i :: 0 <= i < |b| ==> (a + b)[i + |a|] == b[i];
  }

  lemma {:induction false} JoinOneLine(parts: seq<string>, sep: string)
    requires OneLine(sep) && forall t :: t in parts ==> OneLine(t)
    ensures OneLine(Join(parts, sep))
  {
    if |parts| == 1 {
      assert parts[0] in parts;
    } else if |parts| > 1 {
      assert parts[0] in parts;
      JoinOneLine(parts[1..], sep);
      ConcatOneLine(parts[0], sep);
      ConcatOneLine(parts[0] + sep, Join(parts[1..], sep));
      hide OneLine;
    }
  }

  /** What of the header stands before and after the dash. */
  function Left(q: Entry): string { q.id + " [" + Join(q.tags, " + ") + "]" }

  function Right(q: Entry): string { " grounded: " + q.grounding }

  lemma HeaderSplits(q: Entry)
    ensures Header(q)[..3] == "## " && Header(q)[3..] == Left(q) + " " + [DASH] + Right(q)
  {
    assert Header(q) == "## " + (Left(q) + " " + [DASH] + Right(q));
  }

  lemma LeftOneLine(q: Entry)
    requires GoodEntry(q)
    ensures OneLine(Left(q)) && OneLine(Left(q) + " " + [DASH] + Right(q))
  {
    assert OneLine(q.id) && OneLine(" [") && OneLine("]") && OneLine(" grounded: ") && OneLine(" ") && OneLine([DASH]);
    assert OneLine(q.grounding);
    forall t | t in q.tags
      ensures OneLine(t)
    {
      assert GoodTag(t);
    }
    hide OneLine;
    hide Join;
    assert OneLine(" + ") by { assert forall i :: 0 <= i < 3 ==> !LineBreak(" + "[i]); }
    JoinOneLine(q.tags, " + ");
    ConcatOneLine(q.id, " [");
    ConcatOneLine(q.id + " [", Join(q.tags, " + "));
    ConcatOneLine(q.id + " [" + Join(q.tags, " + "), "]");
    ConcatOneLine(" grounded: ", q.grounding);
    ConcatOneLine(Left(q), " ");
    ConcatOneLine(Left(q) + " ", [DASH]);
    ConcatOneLine(Left(q) + " " + [DASH], Right(q));
  }

  lemma NotAHead(line: string, mark: string)
    requires mark != [] && mark[0] != '#' && mark <= line
    ensures !("## " <= line)
  {
    assert "## "[0] == '#';
  }

  lemma SourcesOneLine(q: Entry)
    requires GoodEntry(q)
    ensures OneLine(Join(q.citations, [' ', DOT, ' ']))
  {
    forall c | c in q.citations
      ensures OneLine(c)
    {
      assert GoodCitation(c);
    }
    JoinOneLine(q.citations, [' ', DOT, ' ']);
  }

  lemma MarkedLine(mark: string, text: string)
    requires mark != [] && mark[0] != '#' && OneLine(mark) && OneLine(text)
    ensures PlainLine(mark + text)
  {
    ConcatOneLine(mark, text);
    NotAHead(mark + text, mark);
  }

  lemma BlankLine()
    ensures PlainLine("")
  {
  }

  lemma AnswerMark(q: Entry)
    ensures var mark := if q.grounding == NOT_STATED then UNVERIFIED + "A: " else "A: ";
      AnswerLine(q) == mark + q.draftAnswer && OneLine(mark) && mark[0] == (if q.grounding == NOT_STATED then 'W' else 'A')
  {
  }

  /** No line of a question but its header starts a block. */
  lemma QuestionPlain(q: Entry)
    requires GoodEntry(q)
    ensures forall line :: line in QuestionLines(q)[1..] ==> PlainLine(line)
  {
    hide PlainLine;
    hide Join;
    hide AnswerLine;
    BlankLine();
    MarkedLine("Q: ", q.question);
    AnswerMark(q);
    MarkedLine(if q.grounding == NOT_STATED then UNVERIFIED + "A: " else "A: ", q.draftAnswer);
    SourcesOneLine(q);
    MarkedLine("Sources: ", Join(q.citations, [' ', DOT, ' ']));
  }

  lemma {:induction false} AllLinesFrom(questions: seq<Entry>)
    requires questions != []
    ensures AllLines(questions) == QuestionLines(questions[0]) + AllLines(questions[1..])
  {
    hide QuestionLines;
    if |questions| == 1 {
      assert questions[..0] == [] && questions[1..] == [];
    } else {
      var init, last := questions[..|questions| - 1], questions[|questions| - 1];
      AllLinesFrom(init);
      assert init[1..] == questions[1..][..|questions| - 2];
      assert QuestionLines(questions[0]) + AllLines(init[1..]) + QuestionLines(last)
          == QuestionLines(questions[0]) + (AllLines(init[1..]) + QuestionLines(last));
    }
  }

  /** The heading mark of a question ends the current piece and starts the next. */
  lemma {:induction false} PiecesQuestions(questions: seq<Entry>, current: string)
    requires forall q :: q in questions ==> GoodEntry(q)
    ensures Pieces(Unlines(AllLines(questions)), current, true) == [current] + Bodies(questions)
    decreases |questions|
  {
    if questions == [] {
      assert Unlines([]) == "";
    } else {
      var q, more := questions[0], questions[1..];
      var rest := Unlines(AllLines(more));
      AllLinesFrom(questions);
      UnlinesConcat(QuestionLines(q), AllLines(more));
      hide AllLines;
      hide GoodEntry;
      hide Map;
      PieceOfQuestion(q, rest, current);
      PiecesQuestions(more, Body(q));
      hide Pieces;
      hide Body;
      hide Unlines;
      assert Bodies(questions) == [Body(q)] + Bodies(more);
    }
  }

  lemma PieceOfQuestion(q: Entry, rest: string, current: string)
    requires GoodEntry(q)
    ensures Pieces(Unlines(QuestionLines(q)) + rest, current, true) == [current] + Pieces(rest, Body(q), true)
  {
    var head, tail := Header(q), QuestionLines(q)[1..];
    HeaderSplits(q);
    LeftOneLine(q);
    QuestionPlain(q);
    hide Header;
    hide GoodEntry;
    hide OneLine;
    hide PlainLine;
    hide AnswerLine;
    hide SourceLines;
    assert Unlines(QuestionLines(q)) == head + "\n" + Unlines(tail);
    hide QuestionLines;
    var s := head + "\n" + Unlines(tail) + rest;
    assert s[3..] == head[3..] + "\n" + (Unlines(tail) + rest);
    HeadStarts(s, current);
    PiecesLine(head[3..], Unlines(tail) + rest, "", false);
    assert "" + head[3..] == head[3..];
    PiecesLines(tail, rest, head[3..] + "\n");
    hide Pieces;
    hide Unlines;
  }

  lemma HeadStarts(s: string, current: string)
    requires |s| > 3 && s[..3] == "## "
    ensures Pieces(s, current, true) == [current] + Pieces(s[3..], "", false)
  {
  }

  // ------------------------------------------------------------------- reading a header

  lemma {:induction false} JoinFree(parts: seq<string>, sep: string, c: char)
    requires c !in sep && forall t :: t in parts ==> c !in t
    ensures c !in Join(parts, sep)
  {
    if |parts| == 1 {
      assert parts[0] in parts;
    } else if |parts| > 1 {
      assert parts[0] in parts;
      JoinFree(parts[1..], sep, c);
    }
  }

  lemma {:induction false} ParenNone(s: string)
    requires '(' !in s
    ensures ParenId(s) == None
  {
    if |s| >= 6 {
      assert s[0] in s;
      ParenNone(s[1..]);
    }
  }

  lemma TokenStops(id: string, rest: string)
    requires ShortId(id) && id[0] == 'q'
    ensures LeadToken(id + " " + rest) == id && LeadId(id) == Some(id) && Lower(id) == id && Trim(id) == id
  {
    var s := id + " " + rest;
    assert s[1..][1..][1..][1..] == " " + rest;
    assert s[0] == id[0] && s[1..][0] == id[1] && s[1..][1..][0] == id[2] && s[1..][1..][1..][0] == id[3];
    assert LeadToken(" " + rest) == "";
    assert LeadToken(s[1..][1..][1..]) == [id[3]];
    assert LeadToken(s[1..][1..]) == [id[2], id[3]];
    assert LeadToken(s[1..]) == [id[1], id[2], id[3]];
    assert [id[0]] + [id[1], id[2], id[3]] == id;
    assert id[|id| - 4..] == id;
    assert forall i :: 0 <= i < 4 ==> Lower(id)[i] == id[i];
    TrimFixed(id);
  }

  lemma TagsFree(q: Entry, c: char)
    requires GoodEntry(q) && c in {'(', ']', DASH}
    ensures c !in Join(q.tags, " + ")
  {
    forall t | t in q.tags
      ensures c !in t
    {
      assert GoodTag(t);
    }
    JoinFree(q.tags, " + ", c);
  }

  lemma LeftFree(q: Entry, c: char)
    requires GoodEntry(q) && c in {'(', DASH}
    ensures c !in Left(q)
  {
    TagsFree(q, c);
    assert ShortId(q.id) && q.id[0] == 'q';
    hide GoodEntry;
    hide Join;
    assert forall i :: 0 <= i < 4 ==> q.id[i] != c;
  }

  /** The id is read from the leading token. */
  lemma IdRead(q: Entry)
    requires GoodEntry(q)
    ensures IdOf(Left(q)) == q.id && Trim(Left(q) + " ") == Left(q) && DASH !in Left(q)
  {
    hide ParenId;
    hide LeadToken;
    hide LeadId;
    hide Lower;
    hide Trim;
    hide Join;
    hide IsSpace;
    LeftFree(q, '(');
    LeftFree(q, DASH);
    ParenNone(Left(q));
    TokenStops(q.id, "[" + Join(q.tags, " + ") + "]");
    assert Left(q) == q.id + " " + ("[" + Join(q.tags, " + ") + "]");
    TrimLeft(q);
  }

  lemma TrimLeft(q: Entry)
    requires GoodEntry(q)
    ensures Trim(Left(q) + " ") == Left(q)
  {
    hide Join;
    hide Trim;
    assert ShortId(q.id) && q.id[0] == 'q';
    TrimTail(Left(q));
  }

  lemma TrimTail(s: string)
    requires s != "" && !IsSpace(s[0]) && !IsSpace(s[|s| - 1])
    ensures Trim(s + " ") == s
  {
    assert (s + " ")[..|s|] == s;
    assert TrimStart(s + " ") == s + " ";
    assert TrimEnd(s) == s;
  }

  lemma {:induction false} BracketRead(before: string, group: string)
    requires '[' !in before && ']' !in group
    ensures Bracket(before + "[" + group + "]") == Some(group)
  {
    var s := before + "[" + group + "]";
    if before == "" {
      assert s[1..] == group + [']'] + "";
      IndexOfAt(group, ']', "");
      assert s[0] == '[' && s[1..][..|group|] == group;
    } else {
      assert s[1..] == before[1..] + "[" + group + "]";
      BracketRead(before[1..], group);
    }
  }

  lemma TrimPadded(t: string)
    requires Trimmed(t) && t != ""
    ensures Trim(t) == t && Trim(" " + t) == t && Trim(t + " ") == t && Trim(" " + t + " ") == t
  {
    TrimFixed(t);
    TrimTail(t);
    assert (" " + t)[1..] == t && (" " + t + " ")[1..] == t + " ";
    assert TrimStart(t) == t;
    assert TrimStart(t + " ") == t + " ";
  }

  /** Joining with a padded separator and splitting at it gives the parts back. */
  lemma {:induction false} SplitJoined(parts: seq<string>, c: char, pad: string)
    requires parts != [] && !IsSpace(c) && (pad == "" || pad == " ")
    requires forall t :: t in parts ==> t != "" && Trimmed(t) && c !in t
    ensures Map(SplitOn(pad + Join(parts, [' ', c, ' ']), c), Trim) == parts
  {
    hide Trim;
    hide SplitOn;
    hide Map;
    hide Join;
    assert c != ' ';
    hide IsSpace;
    var first, rest := parts[0], parts[1..];
    assert first in parts;
    TrimPadded(first);
    hide Trimmed;
    assert "" + first == first;
    assert c !in pad + first + " ";
    if rest == [] {
      assert parts == [first];
      JoinOne(first, [' ', c, ' ']);
      SplitFirst(pad + first, c, "");
      MapOne(pad + first);
    } else {
      var joined := Join(rest, [' ', c, ' ']);
      SplitJoined(rest, c, " ");
      JoinPadded(parts, c, pad);
      SplitFirst(pad + first + " ", c, " " + joined);
      MapFirst(pad + first + " ", SplitOn(" " + joined, c));
      assert [first] + rest == parts;
    }
  }

  lemma JoinOne(part: string, sep: string)
    ensures Join([part], sep) == part
  {
  }

  lemma JoinPadded(parts: seq<string>, c: char, pad: string)
    requires |parts| > 1
    ensures pad + Join(parts, [' ', c, ' ']) == (pad + parts[0] + " ") + [c] + (" " + Join(parts[1..], [' ', c, ' ']))
  {
    Regroup(pad, parts[0], c, Join(parts[1..], [' ', c, ' ']));
  }

  lemma Regroup(pad: string, part: string, c: char, joined: string)
    ensures pad + (part + [' ', c, ' '] + joined) == (pad + part + " ") + [c] + (" " + joined)
  {
    assert [' ', c, ' '] == " " + [c] + " ";
  }

  lemma MapOne(s: string)
    ensures Map([s], Trim) == [Trim(s)]
  {
  }

  lemma MapFirst(s: string, more: seq<string>)
    ensures Map([s] + more, Trim) == [Trim(s)] + Map(more, Trim)
  {
    assert ([s] + more)[1..] == more;
  }

  lemma TagsBack(q: Entry)
    requires GoodEntry(q)
    ensures Map(SplitOn(Join(q.tags, " + "), '+'), Trim) == q.tags && Filter(q.tags, NonEmpty()) == q.tags
    ensures Join(q.tags, " + ") != ""
  {
    forall t | t in q.tags
      ensures t != "" && Trimmed(t) && '+' !in t
    {
      assert GoodTag(t);
    }
    hide GoodTag;
    hide SplitOn;
    hide Trim;
    SplitJoined(q.tags, '+', "");
    assert "" + Join(q.tags, " + ") == Join(q.tags, " + ") && [' ', '+', ' '] == " + ";
    FilterAll(q.tags, NonEmpty());
    JoinNonEmpty(q.tags, " + ");
    hide Join;
  }

  lemma BracketOfLeft(q: Entry)
    requires GoodEntry(q)
    ensures Bracket(Left(q)) == Some(Join(q.tags, " + "))
  {
    var tags := Join(q.tags, " + ");
    TagsFree(q, ']');
    hide Join;
    hide Bracket;
    assert ShortId(q.id);
    BracketRead(q.id + " ", tags);
    assert Left(q) == q.id + " " + "[" + tags + "]";
  }

  /** The tags are read from the brackets. */
  lemma TagsRead(q: Entry)
    requires GoodEntry(q)
    ensures TagsIn(Left(q)) == q.tags
  {
    hide Left;
    hide Bracket;
    hide Join;
    hide SplitOn;
    hide Trim;
    hide Map;
    hide Filter;
    hide GoodEntry;
    TagsBack(q);
    BracketOfLeft(q);
  }

  lemma JoinNonEmpty(parts: seq<string>, sep: string)
    requires parts != [] && forall t :: t in parts ==> t != ""
    ensures Join(parts, sep) != ""
  {
    assert parts[0] in parts;
  }

  lemma {:induction false} WordStops(g: string, rest: string)
    requires (forall i :: 0 <= i < |g| ==> WordChar(g[i])) && (rest == "" || !WordChar(rest[0]))
    ensures TakeWord(g + rest) == g
  {
    if g == "" {
      assert g + rest == rest;
    } else {
      assert (g + rest)[1..] == g[1..] + rest;
      WordStops(g[1..], rest);
    }
  }

  /** The grounding is the first word after the label. */
  lemma GroundingRead(g: string, rest: string)
    requires GoodWord(g)
    ensures FindGrounding([DASH] + (" grounded: " + g) + "\n" + rest) == Some(g)
  {
    var s := [DASH] + (" grounded: " + g) + "\n" + rest;
    var after := "grounded:" + (" " + (g + ("\n" + rest)));
    assert s[1..][1..] == after;
    assert s[0] == DASH && s[1..][0] == ' ' && "grounded:"[0] == 'g';
    assert after[9..] == " " + (g + ("\n" + rest));
    assert after[9..][1..] == g + ("\n" + rest);
    assert WordChar(g[0]) && !IsSpace(g[0]);
    assert TrimStart(after[9..]) == g + ("\n" + rest);
    WordStops(g, "\n" + rest);
    LabelAt(after);
    assert !("grounded:" <= s) && !("grounded:" <= s[1..]);
    hide TakeWord;
    hide TrimStart;
  }

  lemma LabelAt(s: string)
    requires "grounded:" <= s && TakeWord(TrimStart(s[9..])) != ""
    ensures FindGrounding(s) == Some(TakeWord(TrimStart(s[9..])))
  {
  }

  // ------------------------------------------------------------------- reading the lines

  /** A pattern that does not match at the start of a line skips the line. */
  lemma {:induction false} SkipLine(line: string, rest: string, bol: bool, at: string -> Option<string>)
    requires OneLine(line) && (bol ==> at(line + "\n" + rest).None?)
    ensures FindFirst(line + "\n" + rest, bol, at) == FindFirst(rest, true, at)
  {
    var s := line + "\n" + rest;
    if line == "" {
      assert s[1..] == rest;
    } else {
      assert s[1..] == line[1..] + "\n" + rest;
      SkipLine(line[1..], rest, false, at);
    }
  }

  lemma {:induction false} ToBreak(text: string, rest: string)
    requires OneLine(text)
    ensures UpToBreak(text + "\n" + rest) == text
  {
    if text == "" {
      assert (text + "\n" + rest)[0] == '\n';
    } else {
      assert (text + "\n" + rest)[1..] == text[1..] + "\n" + rest;
      ToBreak(text[1..], rest);
    }
  }

  /** A marked line is read in full. */
  lemma LineRead(mark: string, text: string, rest: string)
    requires text != "" && OneLine(text)
    ensures LineWith(mark)(mark + text + "\n" + rest) == Some(text)
  {
    var s := mark + text + "\n" + rest;
    assert s[|mark|..] == text + "\n" + rest && s[..|mark|] == mark;
    assert s[|mark|] == text[0];
    ToBreak(text, rest);
    hide UpToBreak;
  }

  lemma OtherMark(mark: string, s: string)
    requires mark != [] && s != "" && s[0] != mark[0]
    ensures LineWith(mark)(s).None?
  {
  }

  lemma FoundHere(s: string, at: string -> Option<string>)
    requires s != "" && at(s).Some?
    ensures FindFirst(s, true, at) == at(s)
  {
  }

  /** The lines of a question before its sources. */
  function Upper(q: Entry): string { Left(q) + " " + [DASH] + Right(q) }

  function Marked(q: Entry): string { "Q: " + q.question }

  function SourceText(q: Entry): string {
    if q.citations == [] then "" else "\n" + ("Sources: " + Join(q.citations, [' ', DOT, ' ']) + "\n")
  }

  /** A block, line by line. */
  lemma BodyLines(q: Entry)
    ensures Body(q) == Upper(q) + "\n" + ("" + "\n" + (Marked(q) + "\n" + ("" + "\n" + (AnswerLine(q) + "\n" +
                       (SourceText(q) + "\n")))))
  {
    HeaderSplits(q);
    var lines := QuestionLines(q)[1..];
    hide Header;
    hide AnswerLine;
    hide Left;
    hide Right;
    hide Join;
    assert lines == ["", Marked(q), "", AnswerLine(q)] + SourceLines(q) + [""];
    UnlinesConcat(["", Marked(q), "", AnswerLine(q)] + SourceLines(q), [""]);
    UnlinesConcat(["", Marked(q), "", AnswerLine(q)], SourceLines(q));
    FourLines("", Marked(q), "", AnswerLine(q));
    SourceTextLines(q);
    assert Unlines([""]) == "\n" by { assert [""][1..] == []; }
    hide Unlines;
    hide SourceText;
    hide SourceLines;
    hide Marked;
  }

  lemma FourLines(a: string, b: string, c: string, d: string)
    ensures Unlines([a, b, c, d]) == a + "\n" + (b + "\n" + (c + "\n" + (d + "\n")))
  {
    assert [a, b, c, d][1..] == [b, c, d] && [b, c, d][1..] == [c, d] && [c, d][1..] == [d] && [d][1..] == [];
    assert Unlines([d]) == d + "\n";
    assert Unlines([c, d]) == c + "\n" + (d + "\n");
    assert Unlines([b, c, d]) == b + "\n" + (c + "\n" + (d + "\n"));
  }

  lemma SourceTextLines(q: Entry)
    ensures Unlines(SourceLines(q)) == SourceText(q)
  {
    hide Join;
    if q.citations != [] {
      var line := "Sources: " + Join(q.citations, [' ', DOT, ' ']);
      assert ["", line][1..] == [line] && [line][1..] == [];
      assert Unlines([line]) == line + "\n";
    }
  }

  /** Skipping the header, the blank line and, for the later patterns, the question line. */
  lemma SkipUpper(q: Entry, rest: string, at: string -> Option<string>)
    requires GoodEntry(q) && forall s :: s != "" && (s[0] == 'q' || s[0] == '\n') ==> at(s).None?
    ensures FindFirst(Upper(q) + "\n" + ("" + "\n" + rest), true, at) == FindFirst(rest, true, at)
  {
    LeftOneLine(q);
    assert ShortId(q.id) && Upper(q)[0] == 'q';
    hide GoodEntry;
    hide Upper;
    SkipLine(Upper(q), "" + "\n" + rest, true, at);
    SkipLine("", rest, true, at);
    hide FindFirst;
  }

  lemma QuestionRead(q: Entry, rest: string)
    requires GoodEntry(q)
    ensures FindFirst(Upper(q) + "\n" + ("" + "\n" + (Marked(q) + "\n" + rest)), true, LineWith("Q: ")) == Some(q.question)
  {
    var at := LineWith("Q: ");
    forall s | s != "" && (s[0] == 'q' || s[0] == '\n')
      ensures at(s).None?
    {
      OtherMark("Q: ", s);
    }
    SkipUpper(q, Marked(q) + "\n" + rest, at);
    LineRead("Q: ", q.question, rest);
    FoundHere(Marked(q) + "\n" + rest, at);
    hide FindFirst;
    hide LineWith;
    hide Upper;
  }

  /** Skipping everything above the answer. */
  lemma SkipToAnswer(q: Entry, rest: string, at: string -> Option<string>)
    requires GoodEntry(q) && forall s :: s != "" && s[0] in {'q', '\n', 'Q'} ==> at(s).None?
    ensures FindFirst(Upper(q) + "\n" + ("" + "\n" + (Marked(q) + "\n" + ("" + "\n" + rest))), true, at) ==
            FindFirst(rest, true, at)
  {
    SkipUpper(q, Marked(q) + "\n" + ("" + "\n" + rest), at);
    ConcatOneLine("Q: ", q.question);
    assert OneLine("Q: ");
    SkipLine(Marked(q), "" + "\n" + rest, true, at);
    SkipLine("", rest, true, at);
    hide FindFirst;
    hide Upper;
  }

  lemma AnswerSilent(s: string)
    requires s != "" && s[0] != 'W' && s[0] != 'A'
    ensures AnswerAt()(s).None?
  {
    OtherMark(UNVERIFIED + "A: ", s);
    OtherMark("A: ", s);
  }

  lemma AnswerRead(q: Entry, rest: string)
    requires GoodEntry(q)
    ensures FindFirst(Upper(q) + "\n" + ("" + "\n" + (Marked(q) + "\n" + ("" + "\n" + (AnswerLine(q) + "\n" + rest)))),
                      true, AnswerAt()) == Some(q.draftAnswer)
  {
    forall s | s != "" && s[0] in {'q', '\n', 'Q'}
      ensures AnswerAt()(s).None?
    {
      AnswerSilent(s);
    }
    SkipToAnswer(q, AnswerLine(q) + "\n" + rest, AnswerAt());
    AnswerHere(q, rest);
    FoundHere(AnswerLine(q) + "\n" + rest, AnswerAt());
    hide FindFirst;
    hide AnswerAt;
    hide Upper;
  }

  lemma AnswerHere(q: Entry, rest: string)
    requires GoodEntry(q)
    ensures AnswerAt()(AnswerLine(q) + "\n" + rest) == Some(q.draftAnswer)
  {
    AnswerMark(q);
    var mark := if q.grounding == NOT_STATED then UNVERIFIED + "A: " else "A: ";
    LineRead(mark, q.draftAnswer, rest);
    assert AnswerLine(q) + "\n" + rest == mark + q.draftAnswer + "\n" + rest;
    if q.grounding != NOT_STATED {
      OtherMark(UNVERIFIED + "A: ", AnswerLine(q) + "\n" + rest);
    }
    hide LineWith;
    hide AnswerLine;
  }

  lemma SourcesRead(q: Entry)
    requires GoodEntry(q)
    ensures FindFirst(Upper(q) + "\n" + ("" + "\n" + (Marked(q) + "\n" + ("" + "\n" + (AnswerLine(q) + "\n" +
                      (SourceText(q) + "\n"))))), true, LineWith("Sources: ")) ==
            if q.citations == [] then None else Some(Join(q.citations, [' ', DOT, ' ']))
  {
    hide FindFirst;
    hide LineWith;
    hide Upper;
    hide AnswerLine;
    hide Marked;
    hide SourceText;
    hide Join;
    hide GoodEntry;
    var at := LineWith("Sources: ");
    forall s | s != "" && s[0] in {'q', '\n', 'Q', 'A', 'W'}
      ensures at(s).None?
    {
      OtherMark("Sources: ", s);
    }
    var rest := SourceText(q) + "\n";
    SkipToAnswer(q, AnswerLine(q) + "\n" + rest, at);
    SkipAnswer(q, rest, at);
    SourcesLast(q);
  }

  lemma SkipAnswer(q: Entry, rest: string, at: string -> Option<string>)
    requires GoodEntry(q) && forall s :: s != "" && s[0] in {'A', 'W'} ==> at(s).None?
    ensures FindFirst(AnswerLine(q) + "\n" + rest, true, at) == FindFirst(rest, true, at)
  {
    AnswerMark(q);
    ConcatOneLine(if q.grounding == NOT_STATED then UNVERIFIED + "A: " else "A: ", q.draftAnswer);
    hide AnswerLine;
    SkipLine(AnswerLine(q), rest, true, at);
    hide FindFirst;
  }

  lemma SourcesLast(q: Entry)
    requires GoodEntry(q)
    ensures FindFirst(SourceText(q) + "\n", true, LineWith("Sources: ")) ==
            if q.citations == [] then None else Some(Join(q.citations, [' ', DOT, ' ']))
  {
    hide FindFirst;
    hide LineWith;
    hide Join;
    if q.citations == [] {
      OtherMark("Sources: ", "" + "\n" + "");
      SkipLine("", "", true, LineWith("Sources: "));
      assert SourceText(q) + "\n" == "" + "\n" + "";
      EmptyText(LineWith("Sources: "));
    } else {
      var joined := Join(q.citations, [' ', DOT, ' ']);
      SourcesOneLine(q);
      SourcesNotEmpty(q);
      OneSourceLine(joined);
      assert SourceText(q) + "\n" == "" + "\n" + ("Sources: " + joined + "\n" + "\n");
    }
  }

  lemma EmptyText(at: string -> Option<string>)
    ensures FindFirst("", true, at) == None
  {
  }

  lemma SourcesNotEmpty(q: Entry)
    requires GoodEntry(q) && q.citations != []
    ensures Join(q.citations, [' ', DOT, ' ']) != ""
  {
    forall c | c in q.citations
      ensures c != ""
    {
      assert GoodCitation(c);
    }
    JoinNonEmpty(q.citations, [' ', DOT, ' ']);
  }

  lemma OneSourceLine(joined: string)
    requires joined != "" && OneLine(joined)
    ensures FindFirst("" + "\n" + ("Sources: " + joined + "\n" + "\n"), true, LineWith("Sources: ")) == Some(joined)
  {
    var at, line := LineWith("Sources: "), "Sources: " + joined + "\n" + "\n";
    OtherMark("Sources: ", "" + "\n" + line);
    SkipLine("", line, true, at);
    LineRead("Sources: ", joined, "\n");
    FoundHere(line, at);
    hide FindFirst;
    hide LineWith;
  }

  // ------------------------------------------------------------------- the round trip

  lemma CitationsRead(q: Entry)
    requires GoodEntry(q) && q.citations != []
    ensures Map(SplitOn(Join(q.citations, [' ', DOT, ' ']), DOT), Trim) == q.citations
  {
    forall c | c in q.citations
      ensures c != "" && Trimmed(c) && DOT !in c
    {
      assert GoodCitation(c);
    }
    SplitJoined(q.citations, DOT, "");
    assert "" + Join(q.citations, [' ', DOT, ' ']) == Join(q.citations, [' ', DOT, ' ']);
  }

  lemma CutAtDash(left: string, right: string, more: string)
    requires DASH !in left
    ensures var b := left + " " + [DASH] + right + "\n" + more;
      && IndexOf(b, DASH) == |left| + 1 && b[..|left| + 1] == left + " " && b[|left| + 1..] == [DASH] + right + "\n" + more
  {
    NoDash(left);
    IndexOfAt(left + " ", DASH, right + "\n" + more);
    assert left + " " + [DASH] + right + "\n" + more == (left + " ") + [DASH] + (right + "\n" + more);
    hide IndexOf;
  }

  /** Where the dash is, and what stands on its two sides. */
  lemma HeaderRead(q: Entry)
    requires GoodEntry(q)
    ensures var block, dash := Body(q), |Left(q)| + 1;
      && IndexOf(block, DASH) == dash && Trim(block[..dash]) == Left(q)
      && FindGrounding(block[dash..]) == Some(q.grounding)
  {
    hide FindGrounding;
    hide IndexOf;
    hide Left;
    hide AnswerLine;
    hide SourceText;
    hide Trim;
    hide Marked;
    var more := "" + "\n" + (Marked(q) + "\n" + ("" + "\n" + (AnswerLine(q) + "\n" + (SourceText(q) + "\n"))));
    BodyLines(q);
    hide Body;
    IdRead(q);
    CutAtDash(Left(q), Right(q), more);
    GroundingRead(q.grounding, more);
  }

  /** What the three line patterns find in a block. */
  lemma LinesRead(q: Entry)
    requires GoodEntry(q)
    ensures FindFirst(Body(q), true, LineWith("Q: ")) == Some(q.question)
    ensures FindFirst(Body(q), true, AnswerAt()) == Some(q.draftAnswer)
    ensures FindFirst(Body(q), true, LineWith("Sources: ")) ==
            if q.citations == [] then None else Some(Join(q.citations, [' ', DOT, ' ']))
  {
    hide FindFirst;
    hide LineWith;
    hide AnswerAt;
    hide Upper;
    hide AnswerLine;
    hide SourceText;
    hide Marked;
    hide Join;
    hide GoodEntry;
    BodyLines(q);
    hide Body;
    QuestionRead(q, "" + "\n" + (AnswerLine(q) + "\n" + (SourceText(q) + "\n")));
    AnswerRead(q, SourceText(q) + "\n");
    SourcesRead(q);
  }

  lemma BlockRead(q: Entry)
    requires GoodEntry(q)
    ensures ParseBlock(Body(q)) == Some(Normal(q))
  {
    hide FindFirst;
    hide FindGrounding;
    hide IndexOf;
    hide IdOf;
    hide TagsIn;
    hide LineWith;
    hide AnswerAt;
    hide SplitOn;
    hide Join;
    hide Map;
    hide Left;
    hide Trim;
    hide Body;
    HeaderRead(q);
    LinesRead(q);
    IdRead(q);
    TagsRead(q);
    IdNotEmpty(q);
    FieldsTrimmed(q);
    if q.citations != [] {
      CitationsRead(q);
    }
    hide GoodEntry;
  }

  lemma FieldsTrimmed(q: Entry)
    requires GoodEntry(q)
    ensures Trim(q.question) == q.question && Trim(q.draftAnswer) == q.draftAnswer
  {
    TrimFixed(q.question);
    TrimFixed(q.draftAnswer);
  }

  lemma IdNotEmpty(q: Entry)
    requires GoodEntry(q)
    ensures q.id != ""
  {
  }

  lemma NoDash(left: string)
    requires DASH !in left
    ensures DASH !in left + " "
  {
  }

  lemma BlocksAppend(blocks: seq<string>, block: string)
    ensures ParseBlocks(blocks + [block]) ==
            ParseBlocks(blocks) + if ParseBlock(block).Some? then [ParseBlock(block).value] else []
  {
    hide ParseBlock;
    assert (blocks + [block])[..|blocks|] == blocks;
  }

  lemma {:induction false} BlocksRead(questions: seq<Entry>)
    requires forall q :: q in questions ==> GoodEntry(q)
    ensures ParseBlocks(Bodies(questions)) == Map(questions, Normal)
  {
    hide ParseBlock;
    hide Body;
    hide GoodEntry;
    hide Normal;
    if questions != [] {
      var init, last := questions[..|questions| - 1], questions[|questions| - 1];
      assert last in questions;
      BlocksRead(init);
      BlockRead(last);
      assert questions == init + [last];
      MapAppend(init, last, Body);
      MapAppend(init, last, Normal);
      BlocksAppend(Bodies(init), Body(last));
      hide Map;
      hide ParseBlocks;
    }
  }

  lemma CountOneLine(n: nat)
    ensures OneLine(Decimal(n))
  {
    DecimalRoundTrip(n);
    forall i | 0 <= i < |Decimal(n)|
      ensures !LineBreak(Decimal(n)[i])
    {
      assert IsDigit(Decimal(n)[i]);
    }
    hide Decimal;
  }

  lemma DotOneLine()
    ensures OneLine([' ', DOT, ' ']) && OneLine(" questions") && OneLine("Generated ")
  {
  }

  lemma SummaryOneLine(s: Sheet)
    requires OneLine(s.generatedAt)
    ensures OneLine(Summary(s))
  {
    hide OneLine;
    hide Scope;
    hide Decimal;
    var dot, count := [' ', DOT, ' '], Decimal(s.questionCount);
    DotOneLine();
    TailOneLine();
    CountOneLine(s.questionCount);
    ConcatOneLine(" questions", dot);
    ConcatOneLine(" questions" + dot, Scope());
    ConcatOneLine(count, " questions" + dot + Scope());
    ConcatOneLine(s.generatedAt, dot);
    ConcatOneLine(s.generatedAt + dot, count + (" questions" + dot + Scope()));
  }

  lemma PreamblePlain(s: Sheet)
    requires OneLine(s.generatedAt)
    ensures forall line :: line in Preamble(s) ==> PlainLine(line)
  {
    hide OneLine;
    hide PlainLine;
    hide Summary;
    DotOneLine();
    SummaryOneLine(s);
    TitlePlain();
    BlankLine();
    MarkedLine("Generated ", Summary(s));
  }

  lemma TailOneLine()
    ensures OneLine(Scope())
  {
    assert OneLine("grounded in winning_project_plan.md");
    assert OneLine(" / manifest / PROV disclosure only.");
    ConcatOneLine("grounded in winning_project_plan.md", " / manifest / PROV disclosure only.");
  }

  lemma TitlePlain()
    ensures PlainLine("# Judge Q&A Defense Sheet")
  {
    assert "# Judge Q&A Defense Sheet"[1] == ' ' && "## "[1] == '#';
  }

  /** Parsing a printed sheet gives its questions back, except that an ungrounded answer without
      sources comes back with the marker as its only source. */
  lemma PrintThenParse(s: Sheet)
    requires GoodSheet(s)
    ensures Parsed(Rendered(s)) == Map(s.questions, Normal)
  {
    hide Pieces;
    hide ParseBlocks;
    hide GoodEntry;
    hide PlainLine;
    hide Preamble;
    UnlinesConcat(Preamble(s), AllLines(s.questions));
    PreamblePlain(s);
    PiecesLines(Preamble(s), Unlines(AllLines(s.questions)), "");
    PiecesQuestions(s.questions, "" + Unlines(Preamble(s)));
    BlocksRead(s.questions);
    hide Unlines;
    hide Map;
    assert ([Unlines(Preamble(s))] + Bodies(s.questions))[1..] == Bodies(s.questions);
  }

  lemma {:induction false} NormalIsIdentity(questions: seq<Entry>)
    ensures Map(questions, Normal) == questions <==>
            forall q :: q in questions ==> !(q.citations == [] && q.grounding == NOT_STATED)
  {
    var mapped := Map(questions, Normal);
    assert forall i :: 0 <= i < |questions| ==> mapped[i] == Normal(questions[i]) && questions[i] in questions;
    if mapped == questions {
      forall q | q in questions
        ensures !(q.citations == [] && q.grounding == NOT_STATED)
      {
        var i :| 0 <= i < |questions| && questions[i] == q;
        assert mapped[i] == Normal(q);
      }
    }
  }

  /** Printer and parser undo each other exactly when every ungrounded answer names a source. */
  lemma RoundTrip(s: Sheet)
    requires GoodSheet(s)
    ensures Parsed(Rendered(s)) == s.questions <==>
            forall q :: q in s.questions ==> !(q.citations == [] && q.grounding == NOT_STATED)
  {
    hide Parsed;
    hide Rendered;
    hide GoodSheet;
    hide Map;
    PrintThenParse(s);
    NormalIsIdentity(s.questions);
  }
}
