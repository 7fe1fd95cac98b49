/** What the planner prompt contains: one contiguous interval of the score order, within budget. */
module ContextPackExact {
  import opened Sequences
  import opened ContextBudget
  import opened ContextStrategies
  import opened ContextRetention
  import opened ContextFit
  import opened ContextPack
  import Text

  /** The messages of the files at positions `lo` up to `hi` of the score order. */
  function FileMessages(fs: seq<RepoFile>, lo: nat, hi: nat): seq<Message>
    requires lo <= hi <= |fs|
  {
    if lo == hi then [] else FileMessages(fs, lo, hi - 1) + [FileMessage(fs[hi - 1], hi - 1)]
  }

  /** The prompt that carries the pinned messages and the files of one interval. */
  function Interval(pins: seq<Message>, fs: seq<RepoFile>, lo: nat, hi: nat): seq<Message>
    requires lo <= hi <= |fs|
  {
    pins + FileMessages(fs, lo, hi)
  }

  /** A repository snapshot lists each path once, and no path contains a line break. */
  ghost predicate Snapshot(fs: seq<RepoFile>) {
    && (forall i, j :: 0 <= i < j < |fs| ==> fs[i].path != fs[j].path)
    && (forall i :: 0 <= i < |fs| ==> '\n' !in fs[i].path)
  }

  /** Three pinned messages, none of which looks like a file. */
  ghost predicate PinsOk(pins: seq<Message>) {
    && |pins| == 3
    && (forall i :: 0 <= i < 3 ==> pins[i].Message? && pins[i].ref == i && Pinned(pins[i]) && Valid(pins[i]))
    && (forall i :: 0 <= i < 3 ==> pins[i].content.value != [] && pins[i].content.value[0] != 'F')
  }

  lemma PinsAreOk(ticket: Ticket, g: Grounding)
    ensures PinsOk(Pins(ticket, g))
  {
    hide GroundText;
    GroundStart(g);
    var text := "TICKET " + ticket.id + "\n" + ticket.title + "\n" + ticket.body;
    assert text != [] && text[0] == 'T' by {
      FirstStays("TICKET " + ticket.id, "\n", ticket.title + "\n", ticket.body);
      assert text == "TICKET " + ticket.id + "\n" + (ticket.title + "\n") + ticket.body;
    }
    assert Pins(ticket, g)[1].content == Some(text);
    assert SYSTEM_TEXT[0] == 'Y';
  }

  lemma GroundStart(g: Grounding)
    ensures GroundText(g) != [] && GroundText(g)[0] in {'G', '#'}
  {
    if g.Grounded? {
      var cited := Map(Upto(g.results, 3), Cite);
      var head := if cited != [] then "## Grounding citations\n" + Text.Join(cited, "\n") + "\n" else "";
      var rest := Text.Join(Map(Upto(g.results, 5), Cite), "\n");
      assert GroundText(g) == head + "GROUNDING query=" + g.query + "\n" + rest;
      assert (head + "GROUNDING query=")[0] in {'#', 'G'};
      FirstStays(head + "GROUNDING query=", g.query, "\n", rest);
    }
  }

  lemma FirstStays(a: string, b: string, c: string, d: string)
    requires a != []
    ensures a + b + c + d != [] && (a + b + c + d)[0] == a[0]
  {
  }

  // ------------------------------------------------------------------- intervals

  lemma {:induction false} FileMessagesAt(fs: seq<RepoFile>, lo: nat, hi: nat)
    requires lo <= hi <= |fs|
    ensures |FileMessages(fs, lo, hi)| == hi - lo
    ensures forall i :: 0 <= i < hi - lo ==> FileMessages(fs, lo, hi)[i] == FileMessage(fs[lo + i], lo + i)
  {
    hide FileMessage;
    if lo < hi {
      FileMessagesAt(fs, lo, hi - 1);
      var init, last := FileMessages(fs, lo, hi - 1), FileMessage(fs[hi - 1], hi - 1);
      assert FileMessages(fs, lo, hi) == init + [last];
    }
  }

  /** File messages are valid, not pinned, and told apart by their position. */
  lemma FileMessagesOk(fs: seq<RepoFile>, lo: nat, hi: nat)
    requires lo <= hi <= |fs|
    ensures forall m :: m in FileMessages(fs, lo, hi) ==> m.Message? && m.ref >= 3 && Valid(m) && Evictable(m)
    ensures Distinct(FileMessages(fs, lo, hi))
  {
    hide FileMessages;
    hide FileText;
    FileMessagesAt(fs, lo, hi);
    var ms := FileMessages(fs, lo, hi);
    forall i | 0 <= i < |ms|
      ensures ms[i].Message? && ms[i].ref == 3 + lo + i && Valid(ms[i]) && Evictable(ms[i])
    {
      assert ms[i] == FileMessage(fs[lo + i], lo + i);
    }
  }

  lemma DistinctConcat(pins: seq<Message>, files: seq<Message>)
    requires PinsOk(pins) && Distinct(files)
    requires forall m :: m in files ==> m.Message? && m.ref >= 3
    ensures Distinct(pins + files)
  {
    hide Valid;
    var b := pins + files;
    forall i, j | 0 <= i < j < |b|
      ensures b[i] != b[j]
    {
      if i >= 3 {
        assert b[i] == files[i - 3] && b[j] == files[j - 3];
      } else if j >= 3 {
        assert b[j] == files[j - 3] && b[j] in files;
      }
    }
  }

  lemma IntervalShape(pins: seq<Message>, fs: seq<RepoFile>, lo: nat, hi: nat)
    requires lo <= hi <= |fs| && PinsOk(pins)
    ensures var b := Interval(pins, fs, lo, hi);
      && AllValid(b) && Distinct(b)
      && Filter(b, Valid) == b && Filter(b, Pinned) == pins && Filter(b, Evictable) == FileMessages(fs, lo, hi)
  {
    hide FileMessages;
    hide Filter;
    hide Valid;
    var files := FileMessages(fs, lo, hi);
    FileMessagesOk(fs, lo, hi);
    DistinctConcat(pins, files);
    FilterAppend(pins, files, Pinned);
    FilterAppend(pins, files, Evictable);
    FilterAll(pins, Pinned);
    FilterNone(files, Pinned);
    FilterNone(pins, Evictable);
    FilterAll(files, Evictable);
    assert AllValid(pins + files);
    FilterAll(pins + files, Valid);
    assert pins + [] == pins && [] + files == files;
  }

  lemma IntervalLess(pins: seq<Message>, fs: seq<RepoFile>, lo: nat, hi: nat)
    requires lo < hi <= |fs|
    ensures Interval(pins, fs, lo, hi) == Interval(pins, fs, lo, hi - 1) + [FileMessage(fs[hi - 1], hi - 1)]
    ensures Latest(Interval(pins, fs, lo, hi)) == FileMessage(fs[hi - 1], hi - 1)
  {
  }

  lemma {:induction false} RetainInterval(pins: seq<Message>, fs: seq<RepoFile>, lo: nat, hi: nat, k: nat)
    requires lo <= hi <= |fs| && PinsOk(pins) && k <= hi - lo
    ensures Retain(Interval(pins, fs, lo, hi), k) == Interval(pins, fs, hi - k, hi)
  {
    hide Retain;
    hide Interval;
    hide FileText;
    hide PinsOk;
    NoFiles(pins, fs, hi);
    if lo < hi {
      var init := Interval(pins, fs, lo, hi - 1);
      IntervalLess(pins, fs, lo, hi);
      assert Interval(pins, fs, lo, hi)[..|init|] == init;
      RetainSnoc(Interval(pins, fs, lo, hi), k);
      if k > 0 {
        RetainInterval(pins, fs, lo, hi - 1, k - 1);
        IntervalLess(pins, fs, hi - k, hi);
      } else {
        RetainInterval(pins, fs, lo, hi - 1, 0);
        NoFiles(pins, fs, hi - 1);
      }
    } else {
      RetainPins(pins, k);
    }
  }

  lemma RetainPins(pins: seq<Message>, k: nat)
    requires PinsOk(pins)
    ensures Retain(pins, k) == pins
  {
    hide Valid;
    RetainPinned(pins, k);
  }

  lemma {:induction false} RetainPinned(pins: seq<Message>, k: nat)
    requires forall m :: m in pins ==> Pinned(m)
    ensures Retain(pins, k) == pins
  {
    if pins != [] {
      RetainPinned(pins[..|pins| - 1], k);
    }
  }

  // ------------------------------------------------------------------- fitting an interval

  lemma IntervalTotal(t: Counter, pins: seq<Message>, fs: seq<RepoFile>, lo: nat, hi: nat)
    requires Tokenizer(t.tok) && PinsOk(pins) && lo < hi <= |fs|
    ensures var last := Count(t.tok, FileMessage(fs[hi - 1], hi - 1));
      && Total(t.tok, Interval(pins, fs, lo, hi)) == Total(t.tok, Interval(pins, fs, lo, hi - 1)) + last
      && 0.0 <= last && Total(t.tok, pins) + last <= Total(t.tok, Interval(pins, fs, lo, hi))
  {
    hide Total;
    hide Count;
    hide FileText;
    IntervalLess(pins, fs, lo, hi);
    TotalSnoc(t.tok, Interval(pins, fs, lo, hi - 1), FileMessage(fs[hi - 1], hi - 1));
    FileMessagesOk(fs, lo, hi - 1);
    CountValid(t.tok, FileMessage(fs[hi - 1], hi - 1));
    TotalConcat(t.tok, pins, FileMessages(fs, lo, hi - 1));
    TotalNonNegative(t.tok, FileMessages(fs, lo, hi - 1));
  }

  /** Fitting the prompt of an interval gives the prompt of a final part of it, unless the pinned
      messages alone exceed the budget. */
  lemma FitInterval(t: Counter, c: Config, pins: seq<Message>, fs: seq<RepoFile>, lo: nat, hi: nat) returns (from: nat)
    requires Tokenizer(t.tok) && PinsOk(pins) && lo <= hi <= |fs| && Applied(ResolveConfig(c).strategy) == SLIDING
    ensures lo <= from <= hi
    ensures var b, budget := Interval(pins, fs, lo, hi), InputBudget(t, c) as real;
      && Fit(t, b, c).buffer == Interval(pins, fs, from, hi)
      && (Total(t.tok, pins) > budget ==> from == hi)
      && (Total(t.tok, pins) <= budget && from > lo ==>
            Total(t.tok, b) > budget && Total(t.tok, Interval(pins, fs, from, hi)) <= budget && from < hi)
  {
    hide Total;
    hide Count;
    hide Valid;
    hide Filter;
    hide Retain;
    hide Greedy;
    hide FileMessages;
    hide InputBudget;
    hide Classify;
    hide KeepLast;
    hide Distinct;
    hide AllValid;
    var b, files, budget := Interval(pins, fs, lo, hi), FileMessages(fs, lo, hi), InputBudget(t, c);
    IntervalShape(pins, fs, lo, hi);
    SameBudget(t, c);
    NoFiles(pins, fs, hi);
    from := hi;
    if Total(t.tok, pins) > budget as real {
      return;
    }
    if LatestOverflows(t, b, budget) || Total(t.tok, b) <= budget as real {
      from := lo;
      return;
    }
    OneSpecification(t.tok, b, budget, 0);
    FileMessagesAt(fs, lo, hi);
    var k := Greedy(t.tok, files, Room(t.tok, b, budget));
    RetainInterval(pins, fs, lo, hi, k);
    WithinBudget(t, b, c);
    from := hi - k;
    if lo < hi {
      IntervalLess(pins, fs, lo, hi);
      assert Latest(files) == Latest(b);
      GreedyPositive(t.tok, files, Room(t.tok, b, budget));
    }
  }

  lemma GreedyPositive(tok: string -> real, b: seq<Message>, room: real)
    requires b != [] && Count(tok, Latest(b)) <= room
    ensures Greedy(tok, b, room) > 0
  {
  }

  lemma NoFiles(pins: seq<Message>, fs: seq<RepoFile>, hi: nat)
    requires hi <= |fs|
    ensures Interval(pins, fs, hi, hi) == pins
  {
  }

  // ------------------------------------------------------------------- pushing in score order

  /** Every path of the score order leads back to its own file. */
  ghost predicate LooksUp(files: seq<RepoFile>, fs: seq<RepoFile>) {
    forall i :: 0 <= i < |fs| ==> Lookup(files, fs[i].path) == Some(fs[i])
  }

  lemma {:induction false} LookupFinds(files: seq<RepoFile>, f: RepoFile)
    requires Snapshot(files) && f in files
    ensures Lookup(files, f.path) == Some(f)
  {
    var init, last := files[..|files| - 1], files[|files| - 1];
    if f != last {
      var i :| 0 <= i < |files| && files[i] == f;
      assert init[i] == f;
      LookupFinds(init, f);
    }
  }

  /** The score order rearranges the snapshot. */
  lemma OrderedSnapshot(x: PackInput)
    requires Snapshot(x.files)
    ensures Snapshot(Ordered(x)) && LooksUp(x.files, Ordered(x)) && multiset(Ordered(x)) == multiset(x.files)
  {
    hide StableSort;
    hide Lookup;
    var fs := Ordered(x);
    SortPermutes(x.files, Rank(x.score));
    SortMembers(x.files, Rank(x.score));
    assert Distinct(x.files);
    DistinctPermuted(x.files, fs);
    forall f | f in fs
      ensures Lookup(x.files, f.path) == Some(f) && '\n' !in f.path
    {
      LookupFinds(x.files, f);
    }
    forall i, j | 0 <= i < j < |fs|
      ensures fs[i].path != fs[j].path
    {
      assert fs[i] in fs && fs[j] in fs;
    }
  }

  /** The push loop stops right after the first file that overflows the budget. */
  lemma {:induction false} PushStops(t: Counter, budget: int, files: seq<RepoFile>, fs: seq<RepoFile>, pins: seq<Message>, i: nat)
    returns (j: nat)
    requires i <= |fs| && LooksUp(files, fs)
    ensures i <= j <= |fs| && Push(t, budget, files, Paths(fs), i, Interval(pins, fs, 0, i)) == Interval(pins, fs, 0, j)
    ensures j < |fs| ==> i < j && Total(t.tok, Interval(pins, fs, 0, j)) > budget as real
    ensures i < j - 1 ==> Total(t.tok, Interval(pins, fs, 0, j - 1)) <= budget as real
    decreases |fs| - i
  {
    hide Total;
    hide FileMessage;
    hide Lookup;
    hide Interval;
    j := i;
    if i < |fs| {
      assert Paths(fs)[i] == fs[i].path;
      IntervalLess(pins, fs, 0, i + 1);
      j := i + 1;
      if Total(t.tok, Interval(pins, fs, 0, i + 1)) <= budget as real {
        j := PushStops(t, budget, files, fs, pins, i + 1);
      }
    }
  }

  // ------------------------------------------------------------------- reading paths back

  lemma {:induction false} FirstLineOf(path: string, text: string)
    requires '\n' !in path
    ensures FirstLine(path + "\n" + text) == path
  {
    if path != [] {
      assert (path + "\n" + text)[1..] == path[1..] + "\n" + text;
      FirstLineOf(path[1..], text);
    }
  }

  lemma PathOfFile(f: RepoFile, i: nat)
    requires '\n' !in f.path
    ensures PathIn(FileMessage(f, i)) == Some(f.path)
  {
    var text := FileText(f);
    assert text == "FILE " + (f.path + "\n" + f.text);
    assert text[5..] == f.path + "\n" + f.text && text[..5] == "FILE ";
    FirstLineOf(f.path, f.text);
    hide FirstLine;
  }

  lemma SamePath(a: string, restA: string, b: string, restB: string)
    requires '\n' !in a && '\n' !in b && a + "\n" + restA == b + "\n" + restB
    ensures a == b
  {
    FirstLineOf(a, restA);
    FirstLineOf(b, restB);
  }

  lemma PrefixPath(path: string, f: RepoFile)
    requires '\n' !in f.path && '\n' !in path && "FILE " + path + "\n" <= FileText(f)
    ensures f.path == path
  {
    var text, rest := FileText(f), FileText(f)[|"FILE " + path + "\n"|..];
    assert text == "FILE " + path + "\n" + rest;
    assert text[5..] == path + "\n" + rest && text[5..] == f.path + "\n" + f.text;
    SamePath(path, rest, f.path, f.text);
  }

  /** The trim predicate removes the message of `path` and nothing else. */
  lemma OtherFile(f: RepoFile, i: nat, path: string)
    requires '\n' !in f.path && '\n' !in path
    ensures OtherThan(path)(FileMessage(f, i)) <==> f.path != path
  {
    var text := FileText(f);
    if f.path == path {
      assert text == "FILE " + path + "\n" + f.text;
    } else {
      if "FILE " + path + "\n" <= text {
        PrefixPath(path, f);
      }
      assert '\n' in text && '\n' !in "FILE " + path;
      hide FileText;
    }
  }

  lemma OtherStart(prefix: string, text: string)
    requires prefix != [] && text != [] && prefix[0] != text[0]
    ensures !(prefix <= text) && prefix != text
  {
  }

  lemma PinsAreNotFiles(pins: seq<Message>, path: string)
    requires PinsOk(pins)
    ensures forall m :: m in pins ==> PathIn(m).None? && OtherThan(path)(m)
  {
    forall i | 0 <= i < 3
      ensures PathIn(pins[i]).None? && OtherThan(path)(pins[i])
    {
      var text := pins[i].content.value;
      OtherStart("FILE ", text);
      OtherStart("FILE " + path + "\n", text);
      OtherStart("FILE " + path, text);
    }
  }

  lemma KeptPaths(pins: seq<Message>, fs: seq<RepoFile>, lo: nat, hi: nat)
    requires PinsOk(pins) && Snapshot(fs) && lo <= hi <= |fs|
    ensures forall p :: p in CollectKept(Interval(pins, fs, lo, hi)) <==> p in Paths(fs)[lo..hi]
  {
    hide PathIn;
    hide FileMessage;
    hide FileMessages;
    hide Valid;
    var b, files := Interval(pins, fs, lo, hi), FileMessages(fs, lo, hi);
    PinsAreNotFiles(pins, "");
    FileMessagesAt(fs, lo, hi);
    var paths := Paths(fs)[lo..hi];
    forall i | 0 <= i < |files|
      ensures PathIn(files[i]) == Some(paths[i])
    {
      PathOfFile(fs[lo + i], lo + i);
      assert paths[i] == Paths(fs)[lo + i];
    }
    forall p
      ensures p in CollectKept(b) <==> p in paths
    {
      if p in paths {
        var i :| 0 <= i < |paths| && paths[i] == p;
        assert PathIn(files[i]) == Some(p) && files[i] in b;
      }
      if p in CollectKept(b) {
        var m :| m in b && PathIn(m) == Some(p);
        assert m in files;
        var i :| 0 <= i < |files| && files[i] == m;
        assert paths[i] == p;
      }
    }
  }

  lemma FilterInterval(paths: seq<string>, kept: set<string>, lo: nat, hi: nat)
    requires Distinct(paths) && lo <= hi <= |paths|
    requires forall p :: p in kept <==> p in paths[lo..hi]
    ensures Filter(paths, Kept(kept)) == paths[lo..hi]
    ensures Filter(paths, Unkept(kept)) == paths[..lo] + paths[hi..]
  {
    hide Filter;
    hide Distinct;
    var a, b, c := paths[..lo], paths[lo..hi], paths[hi..];
    assert paths == a + b + c;
    OutsideInterval(paths, lo, hi);
    FilterThree(a, b, c, Kept(kept));
    FilterThree(a, b, c, Unkept(kept));
    FilterNone(a, Kept(kept));
    FilterAll(b, Kept(kept));
    FilterNone(c, Kept(kept));
    FilterAll(a, Unkept(kept));
    FilterNone(b, Unkept(kept));
    FilterAll(c, Unkept(kept));
    assert [] + b + [] == b && a + [] + c == a + c;
  }

  lemma OutsideInterval(paths: seq<string>, lo: nat, hi: nat)
    requires Distinct(paths) && lo <= hi <= |paths|
    ensures forall p :: p in paths[..lo] || p in paths[hi..] ==> p !in paths[lo..hi]
  {
  }

  lemma FilterThree<T>(a: seq<T>, b: seq<T>, c: seq<T>, p: T -> bool)
    ensures Filter(a + b + c, p) == Filter(a, p) + Filter(b, p) + Filter(c, p)
  {
    FilterAppend(a + b, c, p);
    FilterAppend(a, b, p);
    hide Filter;
  }

  lemma {:induction false} IndexOfExact(paths: seq<string>, i: nat)
    requires Distinct(paths) && i < |paths|
    ensures IndexOf(paths, paths[i]) == i
  {
    if i > 0 {
      assert paths[1..][i - 1] == paths[i];
      IndexOfExact(paths[1..], i - 1);
    }
  }

  /** What is left of the score order is still in score order. */
  lemma RemainderSorted(paths: seq<string>, lo: nat, hi: nat)
    requires Distinct(paths) && lo <= hi <= |paths|
    ensures StableSort(paths[..lo] + paths[hi..], ByPosition(paths)) == paths[..lo] + paths[hi..]
  {
    hide IndexOf;
    hide Distinct;
    forall i: nat | i < |paths|
      ensures IndexOf(paths, paths[i]) == i
    {
      IndexOfExact(paths, i);
    }
    var s := paths[..lo] + paths[hi..];
    forall i, j | 0 <= i < j < |s|
      ensures ByPosition(paths)(s[i], s[j])
    {
      assert s[i] == paths[if i < lo then i else hi + i - lo];
      assert s[j] == paths[if j < lo then j else hi + j - lo];
    }
    SortIdentity(s, ByPosition(paths));
  }

  lemma OthersStay(pins: seq<Message>, fs: seq<RepoFile>, lo: nat, hi: nat, path: string)
    requires PinsOk(pins) && Snapshot(fs) && lo <= hi <= |fs| && '\n' !in path
    requires forall i :: lo <= i < hi ==> fs[i].path != path
    ensures forall m :: m in Interval(pins, fs, lo, hi) ==> OtherThan(path)(m)
  {
    hide OtherThan;
    hide FileMessage;
    hide FileMessages;
    hide Valid;
    var files := FileMessages(fs, lo, hi);
    FileMessagesAt(fs, lo, hi);
    PinsAreNotFiles(pins, path);
    forall i | 0 <= i < |files|
      ensures OtherThan(path)(files[i])
    {
      OtherFile(fs[lo + i], lo + i, path);
    }
  }

  lemma TrimLast(pins: seq<Message>, fs: seq<RepoFile>, lo: nat, hi: nat)
    requires PinsOk(pins) && Snapshot(fs) && lo < hi <= |fs|
    ensures Filter(Interval(pins, fs, lo, hi), OtherThan(fs[hi - 1].path)) == Interval(pins, fs, lo, hi - 1)
  {
    hide Filter;
    hide OtherThan;
    hide FileMessage;
    hide FileMessages;
    hide PinsOk;
    var p := OtherThan(fs[hi - 1].path);
    var init, last := Interval(pins, fs, lo, hi - 1), FileMessage(fs[hi - 1], hi - 1);
    IntervalLess(pins, fs, lo, hi);
    OthersStay(pins, fs, lo, hi - 1, fs[hi - 1].path);
    OtherFile(fs[hi - 1], hi - 1, fs[hi - 1].path);
    hide Interval;
    FilterAppend(init, [last], p);
    FilterAll(init, p);
    FilterOne(last, p);
    assert init + [] == init;
  }

  // ------------------------------------------------------------------- the packed prompt

  lemma PathsDistinct(fs: seq<RepoFile>)
    requires Snapshot(fs)
    ensures Distinct(Paths(fs))
  {
  }

  /** A result over the budget is hot. */
  lemma OverIsHot(t: Counter, window: real, buffer: seq<Message>)
    requires Total(t.tok, buffer) > InputBudget(t, FitConfig(window)) as real && 0 < InputBudget(t, FitConfig(window))
    ensures Hot(t, window, buffer)
  {
    assert ResolveConfig(FitConfig(window)).criticalAt == 0.95;
    var budget := InputBudget(t, FitConfig(window)) as real;
    assert 0.95 * budget <= budget;
    hide InputBudget;
    hide Total;
  }

  /** Refitting an interval that fits changes nothing. */
  lemma FitFitting(t: Counter, c: Config, pins: seq<Message>, fs: seq<RepoFile>, lo: nat, hi: nat)
    requires Tokenizer(t.tok) && PinsOk(pins) && lo <= hi <= |fs| && Applied(ResolveConfig(c).strategy) == SLIDING
    requires Total(t.tok, Interval(pins, fs, lo, hi)) <= InputBudget(t, c) as real
    ensures Fit(t, Interval(pins, fs, lo, hi), c).buffer == Interval(pins, fs, lo, hi)
  {
    hide Fit;
    hide Total;
    hide InputBudget;
    var from := FitInterval(t, c, pins, fs, lo, hi);
    PinsAtMost(t, pins, fs, lo, hi);
  }

  lemma PinsAtMost(t: Counter, pins: seq<Message>, fs: seq<RepoFile>, lo: nat, hi: nat)
    requires Tokenizer(t.tok) && PinsOk(pins) && lo <= hi <= |fs|
    ensures Total(t.tok, pins) <= Total(t.tok, Interval(pins, fs, lo, hi))
  {
    hide Total;
    hide FileText;
    FileMessagesOk(fs, lo, hi);
    TotalConcat(t.tok, pins, FileMessages(fs, lo, hi));
    TotalNonNegative(t.tok, FileMessages(fs, lo, hi));
  }

  /** A hot interval loses its last file. */
  lemma SettleHot(t: Counter, window: real, pins: seq<Message>, fs: seq<RepoFile>, lo: nat, hi: nat)
    requires Tokenizer(t.tok) && PinsOk(pins) && Snapshot(fs) && lo < hi <= |fs|
    requires Total(t.tok, Interval(pins, fs, lo, hi - 1)) <= InputBudget(t, FitConfig(window)) as real
    requires Hot(t, window, Interval(pins, fs, lo, hi))
    ensures var b := Interval(pins, fs, lo, hi - 1);
      Settle(t, window, Paths(fs), Interval(pins, fs, lo, hi)) ==
        Packed(b, Total(t.tok, b), Paths(fs)[..lo] + Paths(fs)[hi - 1..])
  {
    hide Total;
    hide Fit;
    hide Filter;
    hide StableSort;
    hide CollectKept;
    hide Interval;
    hide Hot;
    hide InputBudget;
    hide OtherThan;
    hide PinsOk;
    var b, paths := Interval(pins, fs, lo, hi), Paths(fs);
    PathsDistinct(fs);
    KeptPaths(pins, fs, lo, hi);
    FilterInterval(paths, CollectKept(b), lo, hi);
    assert paths[lo..hi][hi - lo - 1] == fs[hi - 1].path;
    TrimLast(pins, fs, lo, hi);
    FitFitting(t, FitConfig(window), pins, fs, lo, hi - 1);
    KeptPaths(pins, fs, lo, hi - 1);
    FilterInterval(paths, CollectKept(Interval(pins, fs, lo, hi - 1)), lo, hi - 1);
    assert (paths[..lo] + paths[hi - 1..])[lo] == fs[hi - 1].path;
    RemainderSorted(paths, lo, hi - 1);
    hide Paths;
    hide Snapshot;
    hide Distinct;
  }

  /** Settling an interval yields an interval: the same one, or the one without its last file
      when the result is hot; what is reported as dropped is the rest of the score order. */
  lemma SettleInterval(t: Counter, window: real, pins: seq<Message>, fs: seq<RepoFile>, lo: nat, hi: nat)
    requires Tokenizer(t.tok) && PinsOk(pins) && Snapshot(fs) && lo <= hi <= |fs|
    requires lo < hi ==> Total(t.tok, Interval(pins, fs, lo, hi - 1)) <= InputBudget(t, FitConfig(window)) as real
    ensures var b := Interval(pins, fs, lo, hi);
      var end := if Hot(t, window, b) && lo < hi then hi - 1 else hi;
      Settle(t, window, Paths(fs), b) ==
        Packed(Interval(pins, fs, lo, end), Total(t.tok, Interval(pins, fs, lo, end)), Paths(fs)[..lo] + Paths(fs)[end..])
  {
    hide Total;
    hide Fit;
    hide Filter;
    hide StableSort;
    hide CollectKept;
    hide Interval;
    hide Hot;
    hide InputBudget;
    hide OtherThan;
    hide PinsOk;
    if Hot(t, window, Interval(pins, fs, lo, hi)) && lo < hi {
      SettleHot(t, window, pins, fs, lo, hi);
      hide Settle;
    } else {
      PathsDistinct(fs);
      KeptPaths(pins, fs, lo, hi);
      FilterInterval(Paths(fs), CollectKept(Interval(pins, fs, lo, hi)), lo, hi);
    }
  }

  // ------------------------------------------------------------------- the grounding message

  /** No line break in what the search gave. */
  ghost predicate OneLiners(g: Grounding)
    requires g.Grounded?
  {
    '\n' !in g.query && forall i :: 0 <= i < |g.results| ==> '\n' !in Cite(g.results[i])
  }

  /** `lines[from ..]` cite the first `count` results, a line each. */
  ghost predicate Cites(lines: seq<string>, from: nat, results: seq<Citation>, count: nat) {
    && from + count <= |lines| && count <= |results|
    && forall i :: 0 <= i < count ==>
         lines[from + i] == "- " + results[i].title + " | " + results[i].url + " | " + results[i].snippet
  }

  function GroundParts(g: Grounding): seq<string>
    requires g.Grounded?
  {
    (if g.results == [] then [] else [Heading()] + Map(Upto(g.results, 3), Cite)) +
    ([QueryLine(g)] + if g.results == [] then [""] else Map(Upto(g.results, 5), Cite))
  }

  lemma GroundSplits(g: Grounding)
    requires g.Grounded? && OneLiners(g)
    ensures Text.SplitOn(GroundText(g), '\n') == GroundParts(g)
  {
    var cited, all := Map(Upto(g.results, 3), Cite), Map(Upto(g.results, 5), Cite);
    var rest := if g.results == [] then [""] else all;
    FixedLines(g);
    assert forall i :: 0 <= i < |cited| ==> '\n' !in cited[i];
    assert forall i :: 0 <= i < |all| ==> '\n' !in all[i];
    hide OneLiners;
    hide Heading;
    hide QueryLine;
    hide Map;
    hide Cite;
    hide Text.SplitOn;
    hide Text.Join;
    Layout(Heading(), cited, QueryLine(g), rest);
    GroundJoins(g, cited, all);
    hide GroundText;
    Text.SplitJoin(GroundParts(g), '\n');
  }

  /** The grounding message, line by line: the first three results under a heading, then the query
      and the first five. */
  lemma GroundLines(g: Grounding)
    requires g.Grounded? && OneLiners(g) && g.results != []
    ensures var lines, n := Text.SplitOn(GroundText(g), '\n'), |g.results|;
      var three, five := if n < 3 then n else 3, if n < 5 then n else 5;
      && |lines| == 2 + three + five
      && lines[0] == Heading() && Cites(lines, 1, g.results, three)
      && lines[1 + three] == QueryLine(g) && Cites(lines, 2 + three, g.results, five)
  {
    hide *;
    var cited, all := Map(Upto(g.results, 3), Cite), Map(Upto(g.results, 5), Cite);
    GroundSplits(g);
    PartsOfSome(g);
    UptoCites(g.results, 3);
    UptoCites(g.results, 5);
    LinesCite(Heading(), cited, QueryLine(g), all, g.results);
  }

  lemma LinesCite(heading: string, cited: seq<string>, query: string, all: seq<string>, results: seq<Citation>)
    requires |cited| <= |results| && |all| <= |results|
    requires forall i :: 0 <= i < |cited| ==> cited[i] == Cite(results[i])
    requires forall i :: 0 <= i < |all| ==> all[i] == Cite(results[i])
    ensures var lines := ([heading] + cited) + ([query] + all);
      && |lines| == 2 + |cited| + |all|
      && lines[0] == heading && Cites(lines, 1, results, |cited|)
      && lines[1 + |cited|] == query && Cites(lines, 2 + |cited|, results, |all|)
  {
    hide *;
    var lines := ([heading] + cited) + ([query] + all);
    LayoutAt(heading, cited, query, all);
    CitesAt(lines, 1, results, cited);
    CitesAt(lines, 2 + |cited|, results, all);
  }

  lemma UptoCites(results: seq<Citation>, n: nat)
    ensures var cited := Map(Upto(results, n), Cite);
      |cited| == (if |results| < n then |results| else n) && forall i :: 0 <= i < |cited| ==> cited[i] == Cite(results[i])
  {
  }

  lemma PartsOfSome(g: Grounding)
    requires g.Grounded? && g.results != []
    ensures GroundParts(g) ==
      ([Heading()] + Map(Upto(g.results, 3), Cite)) + ([QueryLine(g)] + Map(Upto(g.results, 5), Cite))
  {
  }

  lemma LayoutAt(heading: string, cited: seq<string>, query: string, rest: seq<string>)
    ensures var lines := ([heading] + cited) + ([query] + rest);
      && |lines| == 2 + |cited| + |rest| && lines[0] == heading && lines[1 + |cited|] == query
      && (forall i :: 0 <= i < |cited| ==> lines[1 + i] == cited[i])
      && (forall i :: 0 <= i < |rest| ==> lines[2 + |cited| + i] == rest[i])
  {
  }

  lemma CitesAt(lines: seq<string>, from: nat, results: seq<Citation>, cited: seq<string>)
    requires from + |cited| <= |lines| && |cited| <= |results|
    requires forall i :: 0 <= i < |cited| ==> lines[from + i] == cited[i] && cited[i] == Cite(results[i])
    ensures Cites(lines, from, results, |cited|)
  {
  }

  lemma Layout(heading: string, cited: seq<string>, query: string, rest: seq<string>)
    requires '\n' !in heading && '\n' !in query
    requires (forall i :: 0 <= i < |cited| ==> '\n' !in cited[i]) && forall i :: 0 <= i < |rest| ==> '\n' !in rest[i]
    ensures forall line :: line in ([heading] + cited) + ([query] + rest) || line in [] + ([query] + rest) ==> '\n' !in line
  {
  }

  lemma FixedLines(g: Grounding)
    requires g.Grounded? && '\n' !in g.query
    ensures '\n' !in Heading() && '\n' !in QueryLine(g)
    ensures Heading() == "## Grounding citations" && QueryLine(g) == "GROUNDING query=" + g.query
  {
    var fixed := "GROUNDING query=";
    assert '\n' !in fixed;
    assert forall c :: c in QueryLine(g) ==> c in fixed || c in g.query;
  }

  /** The message is its lines, joined. */
  lemma GroundJoins(g: Grounding, cited: seq<string>, all: seq<string>)
    requires g.Grounded? && cited == Map(Upto(g.results, 3), Cite) && all == Map(Upto(g.results, 5), Cite)
    ensures var rest := if g.results == [] then [""] else all;
      GroundText(g) == Text.Join((if g.results == [] then [] else [Heading()] + cited) + ([QueryLine(g)] + rest), "\n")
  {
    var rest := if g.results == [] then [""] else all;
    var query := QueryLine(g);
    hide Map;
    hide Heading;
    hide QueryLine;
    Text.JoinConcat([query], rest, "\n");
    assert Text.Join([query], "\n") == query && Text.Join(rest, "\n") == Text.Join(all, "\n");
    assert Text.Join([Heading()], "\n") == Heading();
    if g.results == [] {
      assert [] + ([query] + rest) == [query] + rest;
      assert "" + (query + "\n" + Text.Join(all, "\n")) == query + "\n" + Text.Join(all, "\n");
    } else {
      Text.JoinConcat([Heading()], cited, "\n");
      Text.JoinConcat([Heading()] + cited, [query] + rest, "\n");
      Text.JoinConcat([Heading()] + cited, [query] + rest, "\n");
      var tail := query + "\n" + Text.Join(all, "\n");
      hide Text.Join;
      assert Heading() + "\n" + Text.Join(cited, "\n") + "\n" + tail == (Heading() + "\n" + Text.Join(cited, "\n") + "\n") + tail;
    }
  }

  // ------------------------------------------------------------------- the score order

  /** Character by character: `a` ends first, or has the smaller character at the first difference. */
  ghost predicate TextBefore(a: string, b: string) {
    exists k :: 0 <= k <= |a| && k <= |b| && a[..k] == b[..k] && (k == |a| || (k < |b| && a[k] < b[k]))
  }

  lemma {:induction false} LexExact(a: string, b: string)
    ensures LexLe(a, b) <==> TextBefore(a, b)
  {
    if a == [] || b == [] {
      assert a[..0] == b[..0];
    } else {
      LexExact(a[1..], b[1..]);
      if TextBefore(a, b) {
        var k :| 0 <= k <= |a| && k <= |b| && a[..k] == b[..k] && (k == |a| || (k < |b| && a[k] < b[k]));
        if k > 0 {
          assert a[0] == a[..k][0] == b[..k][0] == b[0];
          assert a[1..][..k - 1] == a[..k][1..] == b[..k][1..] == b[1..][..k - 1];
        }
      }
      if a[0] == b[0] && TextBefore(a[1..], b[1..]) {
        var k :| 0 <= k <= |a[1..]| && k <= |b[1..]| && a[1..][..k] == b[1..][..k]
          && (k == |a[1..]| || (k < |b[1..]| && a[1..][k] < b[1..][k]));
        assert a[..k + 1] == [a[0]] + a[1..][..k] && b[..k + 1] == [b[0]] + b[1..][..k];
      }
      if a[0] < b[0] {
        assert a[..0] == b[..0];
      }
    }
  }

  lemma {:induction false} LexOrder(a: string, b: string, c: string)
    ensures LexLe(a, b) || LexLe(b, a)
    ensures LexLe(a, b) && LexLe(b, c) ==> LexLe(a, c)
  {
    if a != [] && b != [] {
      LexOrder(a[1..], b[1..], if c == [] then [] else c[1..]);
    }
  }

  /** `f` comes before `g` in the score order. */
  ghost predicate Ahead(score: RepoFile -> real, f: RepoFile, g: RepoFile) {
    score(f) > score(g) || (score(f) == score(g) && TextBefore(f.path, g.path))
  }

  lemma OrderedAhead(x: PackInput)
    ensures forall i, j :: 0 <= i < j < |Ordered(x)| ==> Ahead(x.score, Ordered(x)[i], Ordered(x)[j])
  {
    hide LexLe;
    hide StableSort;
    hide TextBefore;
    forall f: RepoFile, g: RepoFile, h: RepoFile
      ensures (LexLe(f.path, g.path) || LexLe(g.path, f.path)) && (LexLe(f.path, g.path) && LexLe(g.path, h.path) ==> LexLe(f.path, h.path))
    {
      LexOrder(f.path, g.path, h.path);
    }
    SortSorted(x.files, Rank(x.score));
    forall i, j | 0 <= i < j < |Ordered(x)|
      ensures Ahead(x.score, Ordered(x)[i], Ordered(x)[j])
    {
      LexExact(Ordered(x)[i].path, Ordered(x)[j].path);
      assert Rank(x.score)(Ordered(x)[i], Ordered(x)[j]);
    }
  }

  /** The messages of the packed prompt: three pinned ones, the second of them the ticket, and one
      for each file from `lo` up to `hi`, with its path and its text. */
  ghost predicate Carries(buffer: seq<Message>, x: PackInput, fs: seq<RepoFile>, lo: nat, hi: nat)
    requires lo <= hi <= |fs|
  {
    && |buffer| == 3 + hi - lo
    && (forall i :: 0 <= i < |buffer| ==> buffer[i].Message? && (buffer[i].pinned <==> i < 3))
    && buffer[0].role == "system" && buffer[1].role == buffer[2].role == "user"
    && buffer[1].content == Some("TICKET " + x.ticket.id + "\n" + x.ticket.title + "\n" + x.ticket.body)
    && (forall i :: lo <= i < hi ==>
          buffer[3 + i - lo].role == "user" && buffer[3 + i - lo].content == Some("FILE " + fs[i].path + "\n" + fs[i].text))
  }

  lemma IntervalCarries(x: PackInput, fs: seq<RepoFile>, lo: nat, hi: nat)
    requires lo <= hi <= |fs|
    ensures Carries(Interval(Pins(x.ticket, x.grounding), fs, lo, hi), x, fs, lo, hi)
  {
    hide GroundText;
    hide FileMessages;
    FileMessagesAt(fs, lo, hi);
  }

  /** The packed prompt, for every snapshot. Let `fs` be the files in score order: higher scores
      first, ties by path. The prompt carries the ticket and the files of one contiguous interval
      of that order; the dropped files are exactly the others, in that order; and it is within the
      budget unless the pinned messages alone are not, in which case no file is packed. Nothing is
      dropped exactly when everything fits and is not hot. */
  lemma PackExact(t: Counter, x: PackInput) returns (fs: seq<RepoFile>, lo: nat, hi: nat)
    requires Tokenizer(t.tok) && Snapshot(x.files)
    ensures multiset(fs) == multiset(x.files) && forall i, j :: 0 <= i < j < |fs| ==> Ahead(x.score, fs[i], fs[j])
    ensures lo <= hi <= |fs| && Carries(Pack(t, x).buffer, x, fs, lo, hi)
    ensures var pins, r := Pins(x.ticket, x.grounding), Pack(t, x);
      var budget := BudgetTokens(Window(x.contextWindow)) as real;
      && r.buffer == Interval(pins, fs, lo, hi)
      && r.droppedFiles == Paths(fs)[..lo] + Paths(fs)[hi..]
      && r.tokens == Total(t.tok, r.buffer)
      && (if Total(t.tok, pins) <= budget then r.tokens <= budget else lo == hi)
      && (r.droppedFiles == [] <==>
            fs == [] || (Total(t.tok, Interval(pins, fs, 0, |fs|)) <= budget &&
                         !Hot(t, Window(x.contextWindow), Interval(pins, fs, 0, |fs|))))
  {
    OrderedAhead(x);
    hide Ahead;
    hide Carries;
    hide Total;
    hide Fit;
    hide Filter;
    hide StableSort;
    hide Settle;
    hide Hot;
    hide InputBudget;
    hide Push;
    hide BudgetTokens;
    hide Pins;
    hide PinsOk;
    hide Snapshot;
    hide LooksUp;
    hide FileMessages;
    fs := Ordered(x);
    var pins, window := Pins(x.ticket, x.grounding), Window(x.contextWindow);
    var budget := BudgetTokens(window);
    var _, _, _ := PackBudget(t, x.contextWindow);
    PinsAreOk(x.ticket, x.grounding);
    OrderedSnapshot(x);
    NoFiles(pins, fs, 0);
    var j := PushStops(t, budget, x.files, fs, pins, 0);
    lo := FitInterval(t, FitConfig(window), pins, fs, 0, j);
    PinsAtMost(t, pins, fs, 0, |fs|);
    PinsAtMost(t, pins, fs, lo, j);
    if Total(t.tok, pins) > budget as real {
      hi := j;
      NoFiles(pins, fs, j);
      SettleInterval(t, window, pins, fs, j, j);
    } else {
      if lo < j {
        LastFileFits(t, budget, pins, fs, lo, j);
      }
      SettleInterval(t, window, pins, fs, lo, j);
      hi := if Hot(t, window, Interval(pins, fs, lo, j)) && lo < j then j - 1 else j;
      if Total(t.tok, Interval(pins, fs, lo, j)) > budget as real {
        OverIsHot(t, window, Interval(pins, fs, lo, j));
        NoFiles(pins, fs, j);
      }
    }
    IntervalCarries(x, fs, lo, hi);
    IntervalGrows(t, pins, fs, j, |fs|);
    assert |Paths(fs)[..lo] + Paths(fs)[hi..]| == lo + |fs| - hi;
  }

  lemma {:induction false} IntervalGrows(t: Counter, pins: seq<Message>, fs: seq<RepoFile>, j: nat, k: nat)
    requires Tokenizer(t.tok) && PinsOk(pins) && j <= k <= |fs|
    ensures Total(t.tok, Interval(pins, fs, 0, j)) <= Total(t.tok, Interval(pins, fs, 0, k))
  {
    hide Total;
    hide PinsOk;
    hide FileText;
    hide Interval;
    if j < k {
      IntervalGrows(t, pins, fs, j, k - 1);
      IntervalTotal(t, pins, fs, 0, k);
    }
  }

  lemma LastFileFits(t: Counter, budget: int, pins: seq<Message>, fs: seq<RepoFile>, lo: nat, j: nat)
    requires Tokenizer(t.tok) && PinsOk(pins) && lo < j <= |fs| && Total(t.tok, pins) <= budget as real
    requires j > 1 ==> Total(t.tok, Interval(pins, fs, 0, j - 1)) <= budget as real
    requires lo > 0 ==> Total(t.tok, Interval(pins, fs, lo, j)) <= budget as real
    ensures Total(t.tok, Interval(pins, fs, lo, j - 1)) <= budget as real
  {
    hide Total;
    NoFiles(pins, fs, 0);
    IntervalTotal(t, pins, fs, lo, j);
  }
}
