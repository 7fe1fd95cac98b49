/** The fake sandbox adapter (sidecar/sandbox_routes.py): tags that own directories, forks of
    the parent's directory, and the effect of a branch or a rollback on them. */
module Sandbox {
  import opened Sequences
  import opened Gate

  type Tree = map<string, string>

  datatype Entry = Entry(imageId: string, dir: nat)

  /** `next` numbers the directories `mkdtemp` will hand out. */
  datatype Box = Box(tags: map<string, Entry>, dirs: map<nat, Tree>, next: nat)

  type Nonzero = c: int | c != 0 witness 1

  datatype ApplyResult = Applied(tree: Tree) | Refused(code: Nonzero, stdout: string, stderr: string) | ApplyRaises

  datatype TestRun = TestRun(exitCode: int, tree: Tree, stdout: string, stderr: string, ms: int)

  /** `git apply` and the test command; a test may depend on when it runs and may write files. */
  datatype Shell = Shell(apply: (Tree, string) -> ApplyResult, test: (nat, Tree) -> TestRun)

  const PATCH := ".mergeready-patch.diff"

  function BaselineTag(trace: string): string { "mergeready-baseline-" + trace }

  function BranchTag(trace: string, stepId: string): string { "mergeready-" + trace + "-" + stepId }

  function Clip(s: string): string { if |s| <= 20000 then s else s[..20000] }

  /** The files of a snapshot written in order; entries without a path are skipped. */
  function Written(files: seq<(string, string)>): Tree {
    if files == [] then map[]
    else
      var (path, text) := files[|files| - 1];
      var rest := Written(files[..|files| - 1]);
      if path == "" then rest else rest[path := text]
  }

  function CreateBaseline(b: Box, trace: string, files: seq<(string, string)>): Box {
    Box(b.tags[BaselineTag(trace) := Entry("fake-" + trace, b.next)], b.dirs[b.next := Written(files)], b.next + 1)
  }

  /** The parent's files, or nothing when the parent is unknown. */
  function Forked(b: Box, parentTag: string): Tree {
    if parentTag in b.tags && b.tags[parentTag].dir in b.dirs then b.dirs[b.tags[parentTag].dir] else map[]
  }

  /** The patch file is part of the tree that is patched and tested. */
  function Patched(b: Box, parentTag: string, diff: string): Tree { Forked(b, parentTag)[PATCH := diff] }

  function Report(sha: string -> string, trace: string, d: Candidate, parentTag: string, code: int,
                  stdout: string, stderr: string, ms: int): SandboxRun
  {
    SandboxRun(BranchTag(trace, d.stepId), parentTag, code, Clip(stdout), Clip(stderr), ms, sha(d.unifiedDiff), code != 0)
  }

  /** One branch call: the box afterwards, and the report unless the handler raised. */
  function RunBranch(sh: Shell, sha: string -> string, b: Box, trace: string, d: Candidate, parentTag: string)
    : (Box, Option<SandboxRun>)
  {
    var tree := Patched(b, parentTag, d.unifiedDiff);
    match sh.apply(tree, d.unifiedDiff)
    case ApplyRaises => (b.(dirs := b.dirs[b.next := tree], next := b.next + 1), None)
    case Refused(code, out, err) => (b.(next := b.next + 1), Some(Report(sha, trace, d, parentTag, code, out, err, 0)))
    case Applied(patched) =>
      var run := sh.test(b.next, patched);
      var report := Report(sha, trace, d, parentTag, run.exitCode, run.stdout, run.stderr, run.ms);
      if run.exitCode == 0 then
        (Box(b.tags[BranchTag(trace, d.stepId) := Entry("fake-" + trace + "-" + d.stepId, b.next)],
             b.dirs[b.next := run.tree], b.next + 1), Some(report))
      else (b.(next := b.next + 1), Some(report))
  }

  function RollbackTag(b: Box, tag: string): Box {
    if tag in b.tags then Box(b.tags - {tag}, b.dirs - {b.tags[tag].dir}, b.next) else b
  }

  /** The adapter's state as the process holds it: a tag map and the directories on disk. */
  class FakeSandbox {
    const sh: Shell
    const sha: string -> string
    var tags: map<string, Entry>
    var dirs: map<nat, Tree>
    var next: nat

    constructor (sh: Shell, sha: string -> string)
      ensures this.sh == sh && this.sha == sha && State() == Box(map[], map[], 0)
    {
      this.sh, this.sha := sh, sha;
      tags, dirs, next := map[], map[], 0;
    }

    ghost function State(): Box
      reads this
    {
      Box(tags, dirs, next)
    }

    method MakeDir() returns (dir: nat)
      modifies this`dirs, this`next
      ensures dir == old(next) && State() == old(State()).(dirs := old(dirs)[dir := map[]], next := dir + 1)
    {
      dir := next;
      dirs, next := dirs[dir := map[]], next + 1;
    }

    method Baseline(trace: string, files: seq<(string, string)>) returns (tag: string)
      modifies this
      ensures tag == BaselineTag(trace) && State() == CreateBaseline(old(State()), trace, files)
      ensures tag in tags && tags[tag].dir in dirs && HoldsFiles(dirs[tags[tag].dir], files)
    {
      hide HoldsFiles;
      tag := BaselineTag(trace);
      var dir := MakeDir();
      var tree: Tree := map[];
      for i := 0 to |files|
        invariant tree == Written(files[..i])
      {
        assert files[..i + 1][..i] == files[..i];
        if files[i].0 != "" {
          tree := tree[files[i].0 := files[i].1];
        }
      }
      assert files[..|files|] == files;
      dirs := dirs[dir := tree];
      tags := tags[tag := Entry("fake-" + trace, dir)];
      WrittenHolds(files);
    }

    /** A fresh directory with the parent's files, if the parent is known, and the patch. */
    method Fork(parentTag: string, diff: string) returns (dir: nat, tree: Tree)
      modifies this`dirs, this`next
      ensures dir == old(next) && tree == Patched(old(State()), parentTag, diff)
      ensures State() == Box(tags, old(dirs)[dir := tree], dir + 1)
    {
      tree := if parentTag in tags && tags[parentTag].dir in dirs then dirs[tags[parentTag].dir] else map[];
      tree := tree[PATCH := diff];
      dir := MakeDir();
      dirs := dirs[dir := tree];
      assert dirs == old(dirs)[dir := tree];
    }

    /** `shutil.rmtree` of a directory made since `before`. */
    method Remove(dir: nat, ghost before: map<nat, Tree>)
      requires dir !in before && dirs - {dir} == before
      modifies this`dirs
      ensures dirs == before
    {
      dirs := dirs - {dir};
    }

    method Branch(trace: string, d: Candidate, parentTag: string) returns (reply: Option<SandboxRun>)
      requires next !in dirs
      modifies this
      ensures (State(), reply) == RunBranch(sh, sha, old(State()), trace, d, parentTag)
    {
      ghost var before := dirs;
      var dir, tree := Fork(parentTag, d.unifiedDiff);
      match sh.apply(tree, d.unifiedDiff)
      case ApplyRaises =>
        return None;
      case Refused(code, out, err) =>
        Remove(dir, before);
        return Some(Report(sha, trace, d, parentTag, code, out, err, 0));
      case Applied(patched) =>
        var run := sh.test(dir, patched);
        if run.exitCode == 0 {
          dirs := dirs[dir := run.tree];
          assert dirs == before[dir := run.tree];
          tags := tags[BranchTag(trace, d.stepId) := Entry("fake-" + trace + "-" + d.stepId, dir)];
        } else {
          Remove(dir, before);
        }
        return Some(Report(sha, trace, d, parentTag, run.exitCode, run.stdout, run.stderr, run.ms));
    }

    method Rollback(branchTag: string)
      modifies this`tags, this`dirs
      ensures State() == RollbackTag(old(State()), branchTag)
    {
      if branchTag in tags {
        var entry := tags[branchTag];
        tags := tags - {branchTag};
        dirs := dirs - {entry.dir};
      }
    }
  }

  // ------------------------------------------------------------------- what every call keeps

  /** Tags own existing, pairwise different directories, all handed out before. */
  ghost predicate Clean(b: Box) {
    && (forall t :: t in b.tags ==> b.tags[t].dir in b.dirs)
    && (forall d :: d in b.dirs ==> d < b.next)
    && (forall t, u :: t in b.tags && u in b.tags && t != u ==> b.tags[t].dir != b.tags[u].dir)
  }

  /** `t` names the same entry with the same files in both boxes, or is absent from both. */
  ghost predicate SameTag(b: Box, c: Box, t: string) {
    && (t in b.tags <==> t in c.tags)
    && (t in b.tags ==>
          && b.tags[t] == c.tags[t]
          && b.tags[t].dir in b.dirs && c.tags[t].dir in c.dirs
          && b.dirs[b.tags[t].dir] == c.dirs[c.tags[t].dir])
  }

  /** `tree` holds exactly the files of a snapshot that have a path, each with its text; of two
      entries with one path the later one counts. */
  ghost predicate HoldsFiles(tree: Tree, files: seq<(string, string)>) {
    && (forall p :: p in tree <==> p != "" && Named(files, p))
    && (forall i :: Latest(files, i) && files[i].0 != "" ==> files[i].0 in tree && tree[files[i].0] == files[i].1)
  }

  ghost predicate Named(files: seq<(string, string)>, path: string) { exists i :: 0 <= i < |files| && files[i].0 == path }

  /** No later entry has the path of entry `i`. */
  ghost predicate Latest(files: seq<(string, string)>, i: int) {
    0 <= i < |files| && forall j :: i < j < |files| ==> files[j].0 != files[i].0
  }

  lemma NamedMore(files: seq<(string, string)>, entry: (string, string), p: string)
    ensures Named(files + [entry], p) <==> Named(files, p) || p == entry.0
  {
    var more := files + [entry];
    assert more[|files|] == entry;
    if Named(files, p) {
      var i :| 0 <= i < |files| && files[i].0 == p;
      assert more[i].0 == p;
    }
  }

  lemma LatestMore(files: seq<(string, string)>, entry: (string, string), i: int)
    ensures Latest(files + [entry], i) <==> i == |files| || (Latest(files, i) && files[i].0 != entry.0)
  {
    var more := files + [entry];
    assert more[|files|] == entry;
    if 0 <= i < |files| {
      assert forall j :: i <= j < |files| ==> more[j] == files[j];
    }
  }

  /** One more entry: it is written unless it has no path. */
  lemma EntryHolds(tree: Tree, files: seq<(string, string)>, entry: (string, string))
    requires HoldsFiles(tree, files)
    ensures HoldsFiles(if entry.0 == "" then tree else tree[entry.0 := entry.1], files + [entry])
  {
    forall p
      ensures Named(files + [entry], p) <==> Named(files, p) || p == entry.0
    {
      NamedMore(files, entry, p);
    }
    forall i
      ensures Latest(files + [entry], i) <==> i == |files| || (Latest(files, i) && files[i].0 != entry.0)
    {
      LatestMore(files, entry, i);
    }
    LatestInRange(files);
    hide Named;
    hide Latest;
  }

  lemma LatestInRange(files: seq<(string, string)>)
    ensures forall i :: Latest(files, i) ==> 0 <= i < |files|
  {
  }

  lemma NothingHeld()
    ensures HoldsFiles(map[], [])
  {
  }

  lemma {:induction false} WrittenHolds(files: seq<(string, string)>)
    ensures HoldsFiles(Written(files), files)
  {
    hide HoldsFiles;
    if files == [] {
      NothingHeld();
    } else {
      var init, entry := files[..|files| - 1], files[|files| - 1];
      WrittenHolds(init);
      EntryHolds(Written(init), init, entry);
      assert files == init + [entry];
    }
  }

  lemma BaselineClean(b: Box, trace: string, files: seq<(string, string)>)
    requires Clean(b)
    ensures var c := CreateBaseline(b, trace, files);
      && Clean(c)
      && BaselineTag(trace) in c.tags && HoldsFiles(Forked(c, BaselineTag(trace)), files)
      && forall t :: t != BaselineTag(trace) ==> SameTag(b, c, t)
  {
    WrittenHolds(files);
    hide HoldsFiles;
    hide Written;
  }

  /** A branch call touches no tag but its own. */
  lemma BranchKeeps(sh: Shell, sha: string -> string, b: Box, trace: string, d: Candidate, parentTag: string)
    requires Clean(b)
    ensures var c := RunBranch(sh, sha, b, trace, d, parentTag).0;
      Clean(c) && forall t :: t != BranchTag(trace, d.stepId) ==> SameTag(b, c, t)
  {
    var tree := Patched(b, parentTag, d.unifiedDiff);
    NewDirectory(b, tree);
    match sh.apply(tree, d.unifiedDiff)
    case Applied(patched) =>
      NewTag(b, BranchTag(trace, d.stepId), "fake-" + trace + "-" + d.stepId, sh.test(b.next, patched).tree);
    case _ =>
    hide Clean;
    hide SameTag;
    hide BranchTag;
  }

  lemma NewDirectory(b: Box, tree: Tree)
    requires Clean(b)
    ensures var c := b.(dirs := b.dirs[b.next := tree], next := b.next + 1); Clean(c) && forall t :: SameTag(b, c, t)
    ensures var c := b.(next := b.next + 1); Clean(c) && forall t :: SameTag(b, c, t)
  {
  }

  lemma NewTag(b: Box, tag: string, imageId: string, tree: Tree)
    requires Clean(b)
    ensures var c := Box(b.tags[tag := Entry(imageId, b.next)], b.dirs[b.next := tree], b.next + 1);
      Clean(c) && forall t :: t != tag ==> SameTag(b, c, t)
  {
  }

  /** A rollback removes its tag with its directory and touches no other. */
  lemma RollbackKeeps(b: Box, tag: string)
    requires Clean(b)
    ensures var c := RollbackTag(b, tag);
      && Clean(c) && tag !in c.tags
      && (tag in b.tags ==> b.tags[tag].dir !in c.dirs)
      && forall t :: t != tag ==> SameTag(b, c, t)
  {
  }

  predicate GreenTest(sh: Shell, k: nat, patched: Tree, tree: Tree) {
    sh.test(k, patched).exitCode == 0 && sh.test(k, patched).tree == tree
  }

  ghost predicate GreenOnce(sh: Shell, patched: Tree, tree: Tree) { exists k :: GreenTest(sh, k, patched, tree) }

  /** `tree` is what the parent's files became when `diff` was applied to them and the tests
      passed. */
  ghost predicate TestedGreen(sh: Shell, parent: Tree, diff: string, tree: Tree) {
    var applied := sh.apply(parent[".mergeready-patch.diff" := diff], diff);
    applied.Applied? && GreenOnce(sh, applied.tree, tree)
  }

  /** A report with exit code 0 leaves its tag on exactly the tested tree; any other report
      leaves the tag map as it was. The report names the tag, the diff's digest, and says
      `rolledBack` exactly when the exit code is not 0. */
  lemma BranchReports(sh: Shell, sha: string -> string, b: Box, trace: string, d: Candidate, parentTag: string)
    requires Clean(b)
    ensures var (c, reply) := RunBranch(sh, sha, b, trace, d, parentTag);
      var tag := BranchTag(trace, d.stepId);
      && (reply.Some? ==>
            && reply.value.branchTag == tag
            && reply.value.verifiedSha == sha(d.unifiedDiff)
            && (reply.value.rolledBack <==> reply.value.exitCode != 0))
      && (reply.Some? && reply.value.exitCode == 0 ==>
            && tag in c.tags && c.tags[tag].dir in c.dirs
            && TestedGreen(sh, Forked(b, parentTag), d.unifiedDiff, c.dirs[c.tags[tag].dir]))
      && (reply.Some? && reply.value.exitCode != 0 ==> c.tags == b.tags && c.dirs == b.dirs)
  {
    var tree := Patched(b, parentTag, d.unifiedDiff);
    var applied := sh.apply(tree, d.unifiedDiff);
    if applied.Applied? {
      var run := sh.test(b.next, applied.tree);
      assert run.exitCode == 0 ==> GreenTest(sh, b.next, applied.tree, run.tree);
      assert run.exitCode == 0 ==> TestedGreen(sh, Forked(b, parentTag), d.unifiedDiff, run.tree);
    }
  }

  // ------------------------------------------------------------------- tag names

  lemma BranchTagsInjective(trace: string, a: string, b: string)
    ensures BranchTag(trace, a) == BranchTag(trace, b) <==> a == b
  {
    var p := "mergeready-" + trace + "-";
    assert BranchTag(trace, a)[|p|..] == a && BranchTag(trace, b)[|p|..] == b;
  }

  /** A branch tag can only be the baseline tag for a step id of eight characters, so never for
      the ids the candidate schema admits (`step-1` to `step-8`). */
  lemma BranchTagIsNotBaseline(trace: string, stepId: string)
    requires |stepId| != 8
    ensures BranchTag(trace, stepId) != BaselineTag(trace)
  {
    assert |BranchTag(trace, stepId)| == 12 + |trace| + |stepId|;
    assert |BaselineTag(trace)| == 20 + |trace|;
  }

  /** For other ids it happens: the trace `baseline` with the step id `baseline`. */
  lemma BranchTagCanBeBaseline()
    ensures BranchTag("baseline", "baseline") == BaselineTag("baseline")
  {
  }

  lemma UnknownIsNoTag(trace: string, stepId: string)
    ensures "unknown" != BranchTag(trace, stepId) && "unknown" != BaselineTag(trace)
  {
    assert "unknown"[0] != BranchTag(trace, stepId)[0] && "unknown"[0] != BaselineTag(trace)[0];
  }
}
