/** `packPlannerInput` (mergeready/context/pack.ts): files in score order are pushed until the
    budget overflows, the buffer is fitted, and a hot result loses its last file once more. */
module ContextPack {
  import opened Sequences
  import opened ContextBudget
  import opened ContextStrategies
  import opened ContextFit
  import opened Text

  datatype RepoFile = RepoFile(path: string, text: string)

  datatype Citation = Citation(title: string, url: string, snippet: string)

  datatype Grounding = Unavailable | Grounded(query: string, results: seq<Citation>)

  datatype Ticket = Ticket(id: string, title: string, body: string)

  /** `score` is the relevance the planner gives a file of the snapshot. */
  datatype PackInput = PackInput(ticket: Ticket, grounding: Grounding, files: seq<RepoFile>,
                                 score: RepoFile -> real, contextWindow: real)

  datatype Packed = Packed(buffer: seq<Message>, tokens: real, droppedFiles: seq<string>)

  // ------------------------------------------------------------------- budgets

  function Window(contextWindow: real): real { if contextWindow >= 8000.0 then contextWindow else 128000.0 }

  function BudgetTokens(window: real): int { (window * 0.05).Floor + (window * 0.15).Floor + (window * 0.65).Floor }

  function FitConfig(window: real): Config {
    Config(GENERIC, Num(window), Num(window - BudgetTokens(window) as real), Some(SLIDING), Absent, Absent, Absent)
  }

  /** The reserve handed to `fit` gives back as its input budget exactly the three shares: the whole
      parts of 5, 15 and 65 percent of the window, which is 128000 where less than 8000 is given. */
  lemma PackBudget(t: Counter, contextWindow: real) returns (system: int, ticket: int, repo: int)
    ensures var w := Window(contextWindow);
      && (8000.0 <= contextWindow ==> w == contextWindow) && (contextWindow < 8000.0 ==> w == 128000.0)
      && WholePart(system, 0.05 * w) && WholePart(ticket, 0.15 * w) && WholePart(repo, 0.65 * w)
      && InputBudget(t, FitConfig(w)) == BudgetTokens(w) == system + ticket + repo && 0 < BudgetTokens(w)
  {
    var w := Window(contextWindow);
    system, ticket, repo := (w * 0.05).Floor, (w * 0.15).Floor, (w * 0.65).Floor;
    var reserve := w - BudgetTokens(w) as real;
    assert BudgetTokens(w) as real <= w * 0.85;
    FloorShift(w, BudgetTokens(w));
    assert w.Floor - reserve.Floor == BudgetTokens(w);
    SameBudget(t, FitConfig(w));
  }

  lemma FloorShift(x: real, n: int)
    ensures (x - n as real).Floor == x.Floor - n
  {
    assert (x.Floor - n) as real <= x - n as real < (x.Floor - n + 1) as real;
  }

  // ------------------------------------------------------------------- the prompt parts

  const SYSTEM_TEXT := "You plan minimal code patches. " + "Reply with a PatchPlan only."

  function Cite(c: Citation): string { "- " + c.title + " | " + c.url + " | " + c.snippet }

  function Upto<T>(s: seq<T>, n: nat): seq<T> { if |s| <= n then s else s[..n] }

  function Heading(): string { "## Grounding citations" }

  function QueryLine(g: Grounding): string
    requires g.Grounded?
  {
    "GROUNDING query=" + g.query
  }

  function GroundText(g: Grounding): string {
    if g.Unavailable? then "GROUNDING_UNAVAILABLE"
    else
      var cited := Map(Upto(g.results, 3), Cite);
      (if cited != [] then Heading() + "\n" + Join(cited, "\n") + "\n" else "") +
      (QueryLine(g) + "\n" + Join(Map(Upto(g.results, 5), Cite), "\n"))
  }

  function PinnedText(ref: nat, role: string, text: string): Message {
    Message(ref, role, Some(text), false, true, Absent, Absent)
  }

  function Pins(ticket: Ticket, g: Grounding): seq<Message> {
    [ PinnedText(0, "system", SYSTEM_TEXT),
      PinnedText(1, "user", "TICKET " + ticket.id + "\n" + ticket.title + "\n" + ticket.body),
      PinnedText(2, "user", GroundText(g)) ]
  }

  function FileText(f: RepoFile): string { "FILE " + f.path + "\n" + f.text }

  function FileMessage(f: RepoFile, i: nat): Message {
    Message(3 + i, "user", Some(FileText(f)), false, false, Absent, Absent)
  }

  // ------------------------------------------------------------------- score order

  /** JavaScript string order. */
  predicate LexLe(a: string, b: string) {
    a == [] || (b != [] && (a[0] < b[0] || (a[0] == b[0] && LexLe(a[1..], b[1..]))))
  }

  /** Higher scores first, ties by path. */
  function Rank(score: RepoFile -> real): (RepoFile, RepoFile) -> bool {
    (f: RepoFile, g: RepoFile) => score(f) > score(g) || (score(f) == score(g) && LexLe(f.path, g.path))
  }

  function Ordered(x: PackInput): seq<RepoFile> { StableSort(x.files, Rank(x.score)) }

  function Paths(fs: seq<RepoFile>): seq<string> { Map(fs, (f: RepoFile) => f.path) }

  /** `new Map(files by path).get(path)`: of two files with one path the later one wins. */
  function Lookup(files: seq<RepoFile>, path: string): Option<RepoFile> {
    if files == [] then None
    else if files[|files| - 1].path == path then Some(files[|files| - 1])
    else Lookup(files[..|files| - 1], path)
  }

  /** The push loop with its early exit, from path `i` on. */
  function Push(t: Counter, budget: int, files: seq<RepoFile>, paths: seq<string>, i: nat, buffer: seq<Message>): seq<Message>
    requires i <= |paths|
    decreases |paths| - i
  {
    if i == |paths| then buffer
    else
      match Lookup(files, paths[i])
      case None => Push(t, budget, files, paths, i + 1, buffer)
      case Some(f) =>
        var next := buffer + [FileMessage(f, i)];
        if Total(t.tok, next) > budget as real then next else Push(t, budget, files, paths, i + 1, next)
  }

  // ------------------------------------------------------------------- reading the result back

  predicate StartsWith(s: string, prefix: string) { prefix <= s }

  /** `split("\n", 1)[0]`. */
  function FirstLine(s: string): string {
    if s == [] || s[0] == '\n' then [] else [s[0]] + FirstLine(s[1..])
  }

  function PathIn(m: Message): Option<string> {
    if m.Message? && m.content.Some? && StartsWith(m.content.value, "FILE ") then Some(FirstLine(m.content.value[5..]))
    else None
  }

  function CollectKept(buffer: seq<Message>): set<string> {
    set m | m in buffer && PathIn(m).Some? :: PathIn(m).value
  }

  function Unkept(kept: set<string>): string -> bool { (p: string) => p !in kept }

  function Kept(kept: set<string>): string -> bool { (p: string) => p in kept }

  function OtherThan(path: string): Message -> bool {
    (m: Message) =>
      !(m.Message? && m.content.Some? && StartsWith(m.content.value, "FILE " + path + "\n")) &&
      !(m.Message? && m.content == Some("FILE " + path))
  }

  function ByPosition(paths: seq<string>): (string, string) -> bool {
    (a: string, b: string) => IndexOf(paths, a) <= IndexOf(paths, b)
  }

  /** `calcStatus(fitted).warning === "exceeded"`. */
  predicate Hot(t: Counter, window: real, buffer: seq<Message>) {
    Classify(Total(t.tok, buffer), InputBudget(t, FitConfig(window)), ResolveConfig(FitConfig(window)), false).Exceeded?
  }

  /** The second part of the packing: report what was dropped, and trim a hot result. */
  function Settle(t: Counter, window: real, paths: seq<string>, fitted: seq<Message>): Packed {
    var kept := CollectKept(fitted);
    var inOrder := Filter(paths, Kept(kept));
    if Hot(t, window, fitted) && paths != [] && inOrder != [] then
      var lastKept := inOrder[|inOrder| - 1];
      var refit := Fit(t, Filter(fitted, OtherThan(lastKept)), FitConfig(window)).buffer;
      var dropped := Filter(paths, Unkept(CollectKept(refit)));
      var reported := if lastKept in dropped then dropped else dropped + [lastKept];
      Packed(refit, Total(t.tok, refit), StableSort(reported, ByPosition(paths)))
    else Packed(fitted, Total(t.tok, fitted), Filter(paths, Unkept(kept)))
  }

  /** The specification of `packPlannerInput`. */
  function Pack(t: Counter, x: PackInput): Packed {
    var window := Window(x.contextWindow);
    var paths := Paths(Ordered(x));
    var buffer := Push(t, BudgetTokens(window), x.files, paths, 0, Pins(x.ticket, x.grounding));
    Settle(t, window, paths, Fit(t, buffer, FitConfig(window)).buffer)
  }

  method PushFiles(t: Counter, budget: int, files: seq<RepoFile>, paths: seq<string>, pins: seq<Message>)
    returns (buffer: seq<Message>)
    ensures buffer == Push(t, budget, files, paths, 0, pins)
  {
    buffer := pins;
    for i := 0 to |paths|
      invariant Push(t, budget, files, paths, i, buffer) == Push(t, budget, files, paths, 0, pins)
    {
      var f := Lookup(files, paths[i]);
      if f.Some? {
        buffer := buffer + [FileMessage(f.value, i)];
        if Total(t.tok, buffer) > budget as real {
          return;
        }
      }
    }
  }

  method CollectPaths(buffer: seq<Message>) returns (kept: set<string>)
    ensures kept == CollectKept(buffer)
  {
    kept := {};
    for i := 0 to |buffer|
      invariant kept == CollectKept(buffer[..i])
    {
      var path := PathIn(buffer[i]);
      assert buffer[..i + 1] == buffer[..i] + [buffer[i]];
      if path.Some? {
        kept := kept + {path.value};
      }
    }
    assert buffer[..|buffer|] == buffer;
  }

  method PackPlannerInput(t: Counter, x: PackInput) returns (r: Packed)
    ensures r == Pack(t, x)
  {
    var window := Window(x.contextWindow);
    var paths := Paths(Ordered(x));
    var buffer := PushFiles(t, BudgetTokens(window), x.files, paths, Pins(x.ticket, x.grounding));
    var first := FitBuffer(t, buffer, FitConfig(window));
    var fitted := first.buffer;
    var kept := CollectPaths(fitted);
    var droppedFiles := Filter(paths, Unkept(kept));
    if Hot(t, window, fitted) && paths != [] {
      var inOrder := Filter(paths, Kept(kept));
      if inOrder != [] {
        var lastKept := inOrder[|inOrder| - 1];
        var second := FitBuffer(t, Filter(fitted, OtherThan(lastKept)), FitConfig(window));
        fitted := second.buffer;
        kept := CollectPaths(fitted);
        droppedFiles := Filter(paths, Unkept(kept));
        if lastKept !in droppedFiles {
          droppedFiles := droppedFiles + [lastKept];
        }
        droppedFiles := StableSort(droppedFiles, ByPosition(paths));
      }
    }
    r := Packed(fitted, Total(t.tok, fitted), droppedFiles);
  }
}
