/** The pull-request composer (pr/compose.ts): accepted steps are put in plan order and
    one diff per file survives, the last one. */
module Compose {
  import opened Sequences
  import opened Gate
  import opened Text

  const MAX_SAFE_INTEGER := 9007199254740991

  /** Position of an id in the plan, the last one if the id repeats; unknown ids come last. */
  function OrderOf(ids: seq<string>, id: string): nat {
    if ids == [] then MAX_SAFE_INTEGER
    else if ids[|ids| - 1] == id then |ids| - 1
    else OrderOf(ids[..|ids| - 1], id)
  }

  function PlanOrder(ids: seq<string>): (AcceptedStep, AcceptedStep) -> bool {
    (a: AcceptedStep, b: AcceptedStep) => OrderOf(ids, a.step.id) <= OrderOf(ids, b.step.id)
  }

  function SortedByPlan(ids: seq<string>, accepted: seq<AcceptedStep>): seq<AcceptedStep> {
    StableSort(accepted, PlanOrder(ids))
  }

  /** No later entry touches the file of entry `i`. */
  predicate IsLast(s: seq<AcceptedStep>, i: nat)
    requires i < |s|
  {
    forall j :: i < j < |s| ==> s[j].diff.file != s[i].diff.file
  }

  function WinnersFrom(s: seq<AcceptedStep>, k: nat): seq<AcceptedStep>
    requires k <= |s|
    decreases |s| - k
  {
    if k == |s| then []
    else (if IsLast(s, k) then [s[k]] else []) + WinnersFrom(s, k + 1)
  }

  /** Last-wins specification: the entries that are the last of their file, in order. */
  function Winners(s: seq<AcceptedStep>): seq<AcceptedStep> { WinnersFrom(s, 0) }

  datatype Part = Part(file: string, chunk: string)

  function PartOf(e: AcceptedStep): Part {
    Part(e.diff.file, Trim(e.diff.unifiedDiff) + "\n")
  }

  function Parts(s: seq<AcceptedStep>): seq<Part> { Map(s, PartOf) }

  function Chunks(parts: seq<Part>): seq<string> { Map(parts, (p: Part) => p.chunk) }

  datatype Proposal = Proposal(unifiedDiff: string, conflicts: nat, url: Option<string>)

  /** The composed proposal, as a function of the plan ids and the accepted steps. */
  function Composed(ids: seq<string>, accepted: seq<AcceptedStep>): Proposal {
    var sorted := SortedByPlan(ids, accepted);
    var winners := Winners(sorted);
    WinnersFromBounded(sorted, 0);
    Proposal(if sorted == [] then "" else Join(Chunks(Parts(winners)), "\n"), |sorted| - |winners|, None)
  }

  /** `diff` joins the trimmed diffs of `kept`, each closed by a line feed. */
  ghost predicate Joins(kept: seq<AcceptedStep>, diff: string) {
    exists texts: seq<string> ::
      && |texts| == |kept|
      && (forall i :: 0 <= i < |kept| ==> texts[i] == Trim(kept[i].diff.unifiedDiff) + "\n")
      && diff == Join(texts, "\n")
  }

  lemma ComposedJoins(ids: seq<string>, accepted: seq<AcceptedStep>)
    ensures Joins(Winners(SortedByPlan(ids, accepted)), Composed(ids, accepted).unifiedDiff)
  {
    hide Trim;
    hide SortedByPlan;
    var kept := Winners(SortedByPlan(ids, accepted));
    var texts := Chunks(Parts(kept));
    assert |texts| == |kept|;
    assert forall i :: 0 <= i < |kept| ==> texts[i] == Trim(kept[i].diff.unifiedDiff) + "\n";
  }

  lemma {:induction false} WinnersFromBounded(s: seq<AcceptedStep>, k: nat)
    requires k <= |s|
    ensures |WinnersFrom(s, k)| <= |s| - k
    decreases |s| - k
  {
    if k < |s| {
      WinnersFromBounded(s, k + 1);
    }
  }

  predicate DistinctFiles(s: seq<AcceptedStep>) {
    forall a, b :: 0 <= a < b < |s| ==> s[a].diff.file != s[b].diff.file
  }

  lemma {:induction false} WinnerIndex(s: seq<AcceptedStep>, k: nat, w: AcceptedStep) returns (i: nat)
    requires k <= |s| && w in WinnersFrom(s, k)
    ensures k <= i < |s| && IsLast(s, i) && s[i] == w
    decreases |s| - k
  {
    i := k;
    if !(IsLast(s, k) && w == s[k]) {
      i := WinnerIndex(s, k + 1, w);
    }
  }

  lemma {:induction false} WinnersFromDistinct(s: seq<AcceptedStep>, k: nat)
    requires k <= |s|
    ensures DistinctFiles(WinnersFrom(s, k))
    decreases |s| - k
  {
    if k < |s| {
      WinnersFromDistinct(s, k + 1);
      var rest := WinnersFrom(s, k + 1);
      if IsLast(s, k) {
        forall b | 0 <= b < |rest|
          ensures rest[b].diff.file != s[k].diff.file
        {
          var i := WinnerIndex(s, k + 1, rest[b]);
        }
        PrependDistinct(s[k], rest);
      }
    }
  }

  lemma PrependDistinct(e: AcceptedStep, rest: seq<AcceptedStep>)
    requires DistinctFiles(rest) && forall b :: 0 <= b < |rest| ==> rest[b].diff.file != e.diff.file
    ensures DistinctFiles([e] + rest)
  {
  }

  /** Some entry is the last to touch any file that is touched at all. */
  lemma {:induction false} LastExists(s: seq<AcceptedStep>, i: nat) returns (last: nat)
    requires i < |s|
    ensures i <= last < |s| && s[last].diff.file == s[i].diff.file && IsLast(s, last)
    decreases |s| - i
  {
    if IsLast(s, i) {
      last := i;
    } else {
      var j :| i < j < |s| && s[j].diff.file == s[i].diff.file;
      last := LastExists(s, j);
    }
  }

  /** `at` lists, in growing order, the positions from `k` on whose entry is the last of its file,
      and `kept` the entries there. */
  ghost predicate Places(s: seq<AcceptedStep>, k: nat, kept: seq<AcceptedStep>, at: seq<nat>) {
    && |at| == |kept|
    && (forall a :: 0 <= a < |at| ==> k <= at[a] < |s| && kept[a] == s[at[a]])
    && (forall a, b :: 0 <= a < b < |at| ==> at[a] < at[b])
    && (forall i :: k <= i < |s| ==> (i in at <==> IsLast(s, i)))
  }

  lemma PlacesCons(s: seq<AcceptedStep>, k: nat, kept: seq<AcceptedStep>, at: seq<nat>)
    requires k < |s| && IsLast(s, k) && Places(s, k + 1, kept, at)
    ensures Places(s, k, [s[k]] + kept, [k] + at)
  {
    hide IsLast;
  }

  lemma PlacesSkip(s: seq<AcceptedStep>, k: nat, kept: seq<AcceptedStep>, at: seq<nat>)
    requires k < |s| && !IsLast(s, k) && Places(s, k + 1, kept, at)
    ensures Places(s, k, kept, at)
  {
    hide IsLast;
    assert k !in at;
  }

  lemma {:induction false} WinnersAt(s: seq<AcceptedStep>, k: nat) returns (at: seq<nat>)
    requires k <= |s|
    ensures Places(s, k, WinnersFrom(s, k), at)
    decreases |s| - k
  {
    at := [];
    if k < |s| {
      hide Places;
      hide IsLast;
      at := WinnersAt(s, k + 1);
      var rest := WinnersFrom(s, k + 1);
      if IsLast(s, k) {
        PlacesCons(s, k, rest, at);
        at := [k] + at;
      } else {
        PlacesSkip(s, k, rest, at);
        assert [] + rest == rest;
      }
    }
  }

  /** Exactly one chunk survives per distinct file, and it is the last entry's; the survivors keep
      their order. */
  lemma WinnersExact(s: seq<AcceptedStep>) returns (at: seq<nat>)
    ensures |at| == |Winners(s)| && DistinctFiles(Winners(s)) && |Winners(s)| <= |s|
    ensures forall a :: 0 <= a < |at| ==> at[a] < |s| && Winners(s)[a] == s[at[a]]
    ensures forall a, b :: 0 <= a < b < |at| ==> at[a] < at[b]
    ensures forall i :: 0 <= i < |s| ==> (i in at <==> forall j :: i < j < |s| ==> s[j].diff.file != s[i].diff.file)
    ensures forall i :: 0 <= i < |s| ==> exists w :: w in Winners(s) && w.diff.file == s[i].diff.file
  {
    WinnersFromDistinct(s, 0);
    WinnersFromBounded(s, 0);
    at := WinnersAt(s, 0);
    forall i | 0 <= i < |s|
      ensures exists w :: w in Winners(s) && w.diff.file == s[i].diff.file
    {
      var last := LastExists(s, i);
      var a :| 0 <= a < |at| && at[a] == last;
      assert Winners(s)[a] == s[last];
    }
  }

  lemma WinnersAreMembers(s: seq<AcceptedStep>)
    ensures |Winners(s)| <= |s| && forall w :: w in Winners(s) ==> w in s
  {
    var at := WinnersExact(s);
  }

  // ------------------------------------------------------------ the loop over the map

  function HasFile(parts: seq<Part>, file: string): bool {
    exists i :: 0 <= i < |parts| && parts[i].file == file
  }

  /** `Map.delete`: drop the entry of a key, keep the others in insertion order. */
  function Delete(parts: seq<Part>, file: string): seq<Part> {
    if parts == [] then []
    else (if parts[0].file == file then [] else [parts[0]]) + Delete(parts[1..], file)
  }

  function WithoutFile(s: seq<AcceptedStep>, file: string): seq<AcceptedStep> {
    if s == [] then []
    else (if s[0].diff.file == file then [] else [s[0]]) + WithoutFile(s[1..], file)
  }

  lemma {:induction false} DeleteParts(s: seq<AcceptedStep>, file: string)
    ensures Delete(Parts(s), file) == Parts(WithoutFile(s, file))
  {
    if s != [] {
      assert Parts(s)[1..] == Parts(s[1..]);
      DeleteParts(s[1..], file);
      if s[0].diff.file != file {
        assert ([s[0]] + WithoutFile(s[1..], file))[1..] == WithoutFile(s[1..], file);
      }
    }
  }

  lemma IsLastAppend(s: seq<AcceptedStep>, x: AcceptedStep, k: nat)
    requires k < |s|
    ensures IsLast(s + [x], k) <==> IsLast(s, k) && s[k].diff.file != x.diff.file
  {
    var t := s + [x];
    assert t[|s|] == x && t[k] == s[k];
    assert forall j :: k < j < |s| ==> t[j] == s[j];
  }

  lemma WithoutFileCons(e: AcceptedStep, s: seq<AcceptedStep>, file: string)
    ensures WithoutFile([e] + s, file) == (if e.diff.file == file then [] else [e]) + WithoutFile(s, file)
  {
    assert ([e] + s)[1..] == s;
  }

  lemma {:induction false} WinnersFromAppend(s: seq<AcceptedStep>, x: AcceptedStep, k: nat)
    requires k <= |s|
    ensures WinnersFrom(s + [x], k) == WithoutFile(WinnersFrom(s, k), x.diff.file) + [x]
    decreases |s| - k
  {
    if k == |s| {
      assert WinnersFrom(s + [x], k + 1) == [];
    } else {
      WinnersFromAppend(s, x, k + 1);
      IsLastAppend(s, x, k);
      WithoutFileCons(s[k], WinnersFrom(s, k + 1), x.diff.file);
      assert [] + WinnersFrom(s, k + 1) == WinnersFrom(s, k + 1);
    }
  }

  /** Reading one more entry: it displaces the chunk of its file, if any, and goes last. */
  lemma ReadOneMore(s: seq<AcceptedStep>, x: AcceptedStep)
    ensures Parts(Winners(s + [x])) == Delete(Parts(Winners(s)), x.diff.file) + [PartOf(x)]
    ensures |Winners(s + [x])| == |Winners(s)| + (if HasFile(Parts(Winners(s)), x.diff.file) then 0 else 1)
    ensures !HasFile(Parts(Winners(s)), x.diff.file) ==>
              Delete(Parts(Winners(s)), x.diff.file) == Parts(Winners(s))
  {
    WinnersFromAppend(s, x, 0);
    MapAppend(WithoutFile(Winners(s), x.diff.file), x, PartOf);
    DeleteParts(Winners(s), x.diff.file);
    WinnersFromDistinct(s, 0);
    DeleteOne(Parts(Winners(s)), x.diff.file);
  }

  /** The composer's loop: a map with insertion order, updated by delete-then-set. */
  method ComposePr(ids: seq<string>, accepted: seq<AcceptedStep>) returns (proposal: Proposal)
    ensures proposal == Composed(ids, accepted)
    ensures Joins(Winners(SortedByPlan(ids, accepted)), proposal.unifiedDiff)
  {
    var sorted := SortedByPlan(ids, accepted);
    var parts: seq<Part> := [];
    var conflicts := 0;
    assert Parts(Winners(sorted[..0])) == [];
    hide Winners;
    hide Delete;
    hide HasFile;
    hide SortedByPlan;
    hide Trim;
    for i := 0 to |sorted|
      invariant parts == Parts(Winners(sorted[..i]))
      invariant conflicts == i - |parts|
    {
      var file := sorted[i].diff.file;
      assert sorted[..i + 1] == sorted[..i] + [sorted[i]];
      ReadOneMore(sorted[..i], sorted[i]);
      if HasFile(parts, file) {
        conflicts := conflicts + 1;
        parts := Delete(parts, file);
      }
      parts := parts + [Part(file, Trim(sorted[i].diff.unifiedDiff) + "\n")];
    }
    assert sorted[..|sorted|] == sorted;
    proposal := Proposal(if |sorted| == 0 then "" else Join(Chunks(parts), "\n"), conflicts, None);
    ComposedJoins(ids, accepted);
    hide Joins;
  }

  lemma {:induction false} DeleteNone(parts: seq<Part>, file: string)
    requires forall i :: 0 <= i < |parts| ==> parts[i].file != file
    ensures Delete(parts, file) == parts
  {
    if parts != [] {
      DeleteNone(parts[1..], file);
    }
  }

  lemma {:induction false} DeleteOne(parts: seq<Part>, file: string)
    requires forall a, b :: 0 <= a < b < |parts| ==> parts[a].file != parts[b].file
    ensures |Delete(parts, file)| == |parts| - (if HasFile(parts, file) then 1 else 0)
    ensures !HasFile(parts, file) ==> Delete(parts, file) == parts
  {
    if parts == [] {
    } else if parts[0].file == file {
      DeleteNone(parts[1..], file);
    } else {
      DeleteOne(parts[1..], file);
      assert forall i :: 0 <= i < |parts| - 1 ==> parts[1..][i] == parts[i + 1];
    }
  }
}
