/** The rebalancing loop of the Q&A sheet generator (ideation/faqdef/generate.ts): questions are
    objects whose tags are rewritten in place until every judging axis has two questions. */
module AxisCoverage {
  import opened Sequences

  const AXES: seq<string> := ["presentation", "business_value", "application_of_technology", "originality"]

  predicate IsAxis(t: string) { t in AXES }

  function SponsorTag(): string -> bool { (t: string) => !IsAxis(t) }

  /** How many questions carry a tag. */
  function Count(sheet: seq<seq<string>>, axis: string): nat {
    if sheet == [] then 0
    else Count(sheet[..|sheet| - 1], axis) + if axis in sheet[|sheet| - 1] then 1 else 0
  }

  predicate Sponsored(tags: seq<string>) { exists i :: 0 <= i < |tags| && !IsAxis(tags[i]) }

  predicate OverCovered(sheet: seq<seq<string>>, t: string) { IsAxis(t) && Count(sheet, t) > 2 }

  /** A donor carries a sponsor tag and an axis that more than two questions carry. */
  predicate Donor(sheet: seq<seq<string>>, tags: seq<string>) {
    Sponsored(tags) && exists i :: 0 <= i < |tags| && OverCovered(sheet, tags[i])
  }

  predicate HasDonor(sheet: seq<seq<string>>) { exists d :: 0 <= d < |sheet| && Donor(sheet, sheet[d]) }

  function FirstDonor(sheet: seq<seq<string>>, from: nat): (d: nat)
    requires exists i :: from <= i < |sheet| && Donor(sheet, sheet[i])
    ensures from <= d < |sheet| && Donor(sheet, sheet[d])
    ensures forall i :: from <= i < d ==> !Donor(sheet, sheet[i])
    decreases |sheet| - from
  {
    if Donor(sheet, sheet[from]) then from else FirstDonor(sheet, from + 1)
  }

  function FirstOver(sheet: seq<seq<string>>, tags: seq<string>): (t: string)
    requires exists i :: 0 <= i < |tags| && OverCovered(sheet, tags[i])
    ensures t in tags && OverCovered(sheet, t)
  {
    if OverCovered(sheet, tags[0]) then tags[0] else FirstOver(sheet, tags[1..])
  }

  function Other(t: string): string -> bool { (u: string) => u != t }

  function Retagged(tags: seq<string>, from: string, to: string): seq<string> { Filter(tags, Other(from)) + [to] }

  /** One retagging: the first donor gives up its first over-covered axis. */
  function Retag(sheet: seq<seq<string>>, axis: string): seq<seq<string>>
    requires HasDonor(sheet)
  {
    var d := FirstDonor(sheet, 0);
    sheet[d := Retagged(sheet[d], FirstOver(sheet, sheet[d]), axis)]
  }

  function Over(n: nat): nat { if n > 2 then n - 2 else 0 }

  /** The termination measure: how far the axes are over two questions, added up. */
  function Surplus(sheet: seq<seq<string>>): nat {
    Over(Count(sheet, AXES[0])) + Over(Count(sheet, AXES[1])) + Over(Count(sheet, AXES[2])) + Over(Count(sheet, AXES[3]))
  }

  lemma {:induction false} CountUpdate(sheet: seq<seq<string>>, d: nat, tags: seq<string>, t: string)
    requires d < |sheet|
    ensures Count(sheet[d := tags], t) ==
            Count(sheet, t) - (if t in sheet[d] then 1 else 0) + (if t in tags then 1 else 0)
  {
    var last := |sheet| - 1;
    if d < last {
      assert sheet[d := tags][..last] == sheet[..last][d := tags];
      CountUpdate(sheet[..last], d, tags, t);
    } else {
      assert sheet[d := tags][..last] == sheet[..last];
    }
  }

  /** What one retagging does to every count: the donated axis loses one question, the
      under-covered one gains at most one, and nothing else changes. */
  lemma RetagCounts(sheet: seq<seq<string>>, axis: string, t: string)
    requires HasDonor(sheet) && IsAxis(axis) && Count(sheet, axis) < 2
    ensures var from := FirstOver(sheet, sheet[FirstDonor(sheet, 0)]);
      && from != axis
      && (t == from ==> Count(Retag(sheet, axis), t) == Count(sheet, t) - 1)
      && (t == axis ==> Count(sheet, t) <= Count(Retag(sheet, axis), t) <= Count(sheet, t) + 1)
      && (t != from && t != axis ==> Count(Retag(sheet, axis), t) == Count(sheet, t))
  {
    var d := FirstDonor(sheet, 0);
    var from := FirstOver(sheet, sheet[d]);
    FilterMembers(sheet[d], Other(from));
    CountUpdate(sheet, d, Retagged(sheet[d], from, axis), t);
    hide Count;
    hide Filter;
  }

  lemma AxesDistinct()
    ensures |AXES| == 4 && Distinct(AXES)
  {
    assert AXES[0][0] == 'p' && AXES[1][0] == 'b' && AXES[2][0] == 'a' && AXES[3][0] == 'o';
  }

  /** Moving one question off an over-covered axis onto an under-covered one lowers the surplus. */
  lemma SurplusDrops(before: seq<nat>, after: seq<nat>, from: nat, to: nat)
    requires |before| == |after| == 4 && from < 4 && to < 4 && from != to
    requires before[from] > 2 && before[to] < 2 && after[from] == before[from] - 1 && after[to] <= before[to] + 1
    requires forall k :: 0 <= k < 4 && k != from && k != to ==> after[k] == before[k]
    ensures Over(after[0]) + Over(after[1]) + Over(after[2]) + Over(after[3]) <
            Over(before[0]) + Over(before[1]) + Over(before[2]) + Over(before[3])
  {
  }

  function Counts(sheet: seq<seq<string>>): (c: seq<nat>)
    ensures |c| == 4 && forall k :: 0 <= k < 4 ==> c[k] == Count(sheet, AXES[k])
  {
    [Count(sheet, AXES[0]), Count(sheet, AXES[1]), Count(sheet, AXES[2]), Count(sheet, AXES[3])]
  }

  /** Every retagging lowers the surplus, so the loop ends for every sheet. */
  lemma RetagLowers(sheet: seq<seq<string>>, axis: string)
    requires HasDonor(sheet) && IsAxis(axis) && Count(sheet, axis) < 2
    ensures Surplus(Retag(sheet, axis)) < Surplus(sheet)
  {
    AxesDistinct();
    hide Retag;
    hide FirstDonor;
    hide FirstOver;
    hide Count;
    var from := FirstOver(sheet, sheet[FirstDonor(sheet, 0)]);
    var after := Retag(sheet, axis);
    var i :| 0 <= i < 4 && AXES[i] == from;
    var j :| 0 <= j < 4 && AXES[j] == axis;
    forall k | 0 <= k < 4
      ensures k == i ==> Counts(after)[k] == Counts(sheet)[k] - 1
      ensures k == j ==> Counts(after)[k] <= Counts(sheet)[k] + 1
      ensures k != i && k != j ==> Counts(after)[k] == Counts(sheet)[k]
    {
      RetagCounts(sheet, axis, AXES[k]);
    }
    RetagCounts(sheet, axis, axis);
    SurplusDrops(Counts(sheet), Counts(after), i, j);
  }

  // ------------------------------------------------------------------- the two loops

  /** The inner loop of one axis. */
  function Balanced(sheet: seq<seq<string>>, axis: string): seq<seq<string>>
    requires IsAxis(axis)
    decreases Surplus(sheet)
  {
    if Count(sheet, axis) >= 2 || !HasDonor(sheet) then sheet
    else
      RetagLowers(sheet, axis);
      Balanced(Retag(sheet, axis), axis)
  }

  /** The first `i` axes, one after the other. */
  function Enforced(sheet: seq<seq<string>>, i: nat): seq<seq<string>>
    requires i <= |AXES|
  {
    if i == 0 then sheet else Balanced(Enforced(sheet, i - 1), AXES[i - 1])
  }

  class Question {
    const id: string
    var tags: seq<string>

    constructor (id: string, tags: seq<string>)
      ensures this.id == id && this.tags == tags
    {
      this.id, this.tags := id, tags;
    }
  }

  function TagsOf(entries: seq<Question>): (r: seq<seq<string>>)
    reads entries
    ensures |r| == |entries| && forall i :: 0 <= i < |entries| ==> r[i] == entries[i].tags
  {
    if entries == [] then [] else TagsOf(entries[..|entries| - 1]) + [entries[|entries| - 1].tags]
  }

  method CountAxis(entries: seq<Question>, axis: string) returns (n: nat)
    ensures n == Count(TagsOf(entries), axis)
  {
    n := 0;
    var all := TagsOf(entries);
    for i := 0 to |entries|
      invariant n == Count(all[..i], axis)
    {
      assert all[..i + 1][..i] == all[..i];
      if axis in entries[i].tags {
        n := n + 1;
      }
    }
    assert all[..|all|] == all;
  }

  method FindDonor(entries: seq<Question>) returns (d: int)
    ensures d == if HasDonor(TagsOf(entries)) then FirstDonor(TagsOf(entries), 0) else |entries|
  {
    var all := TagsOf(entries);
    d := 0;
    while d < |entries| && !Donor(all, all[d])
      invariant 0 <= d <= |entries|
      invariant forall i :: 0 <= i < d ==> !Donor(all, all[i])
    {
      d := d + 1;
    }
    hide Donor;
    if d < |entries| {
      assert HasDonor(all);
    }
  }

  /** The inner loop: retag donors until the axis has two questions or nobody can give. */
  method BalanceAxis(entries: seq<Question>, axis: string) returns (changed: bool)
    requires Distinct(entries) && IsAxis(axis)
    modifies entries
    ensures TagsOf(entries) == Balanced(old(TagsOf(entries)), axis)
    ensures if changed then Surplus(TagsOf(entries)) < Surplus(old(TagsOf(entries))) else TagsOf(entries) == old(TagsOf(entries))
  {
    hide Count;
    hide Surplus;
    hide FirstDonor;
    hide HasDonor;
    hide IsAxis;
    changed := false;
    ghost var start := TagsOf(entries);
    var n := CountAxis(entries, axis);
    while n < 2
      invariant n == Count(TagsOf(entries), axis)
      invariant Balanced(TagsOf(entries), axis) == Balanced(start, axis)
      invariant if changed then Surplus(TagsOf(entries)) < Surplus(start) else TagsOf(entries) == start
      decreases Surplus(TagsOf(entries))
    {
      var d := FindDonor(entries);
      if d == |entries| {
        break;
      }
      ghost var before := TagsOf(entries);
      RetagLowers(before, axis);
      RetagDonor(entries, d, axis);
      changed := true;
      n := CountAxis(entries, axis);
    }
  }

  method RetagDonor(entries: seq<Question>, d: nat, axis: string)
    requires Distinct(entries) && HasDonor(TagsOf(entries)) && d == FirstDonor(TagsOf(entries), 0)
    modifies entries
    ensures TagsOf(entries) == Retag(old(TagsOf(entries)), axis)
  {
    ghost var before := TagsOf(entries);
    var donor := entries[d];
    var donorAxis := FirstOver(TagsOf(entries), donor.tags);
    donor.tags := Retagged(donor.tags, donorAxis, axis);
    hide Retagged;
    Rewritten(entries, before, d);
  }

  /** `enforceAxisCoverage` rewrites the tags of the caller's question objects. */
  method EnforceAxisCoverage(entries: seq<Question>) returns (rebalanced: bool)
    requires Distinct(entries)
    modifies entries
    ensures TagsOf(entries) == Enforced(old(TagsOf(entries)), |AXES|)
    ensures rebalanced <==> TagsOf(entries) != old(TagsOf(entries))
  {
    AxesDistinct();
    hide Surplus;
    hide Balanced;
    rebalanced := false;
    ghost var start := TagsOf(entries);
    for k := 0 to |AXES|
      invariant TagsOf(entries) == Enforced(start, k)
      invariant if rebalanced then Surplus(TagsOf(entries)) < Surplus(start) else TagsOf(entries) == start
    {
      assert AXES[k] in AXES;
      var changed := BalanceAxis(entries, AXES[k]);
      rebalanced := rebalanced || changed;
    }
  }

  lemma Rewritten(entries: seq<Question>, before: seq<seq<string>>, d: nat)
    requires d < |entries| == |before|
    requires forall i :: 0 <= i < |entries| && i != d ==> entries[i].tags == before[i]
    ensures TagsOf(entries) == before[d := entries[d].tags]
  {
  }

  // ------------------------------------------------------------------- what the loops achieve

  ghost predicate Covered(sheet: seq<seq<string>>) { forall k :: 0 <= k < |AXES| ==> Count(sheet, AXES[k]) >= 2 }

  /** What rebalancing may do to a sheet: sponsor tags stay, in order; questions without a sponsor
      tag are untouched; no axis falls below two or, if it was lower, below what it had; and no
      axis rises above two or, if it was higher, above what it had. */
  ghost predicate Fair(before: seq<seq<string>>, after: seq<seq<string>>) {
    && |after| == |before|
    && (forall i :: 0 <= i < |before| ==>
          && Filter(after[i], SponsorTag()) == Filter(before[i], SponsorTag())
          && (!Sponsored(before[i]) ==> after[i] == before[i]))
    && (forall t :: IsAxis(t) ==>
          && (Count(after, t) >= Count(before, t) || Count(after, t) >= 2)
          && (Count(after, t) <= Count(before, t) || Count(after, t) <= 2))
  }

  lemma {:induction false} SponsorKept(tags: seq<string>, from: string)
    requires IsAxis(from)
    ensures Filter(Filter(tags, Other(from)), SponsorTag()) == Filter(tags, SponsorTag())
  {
    if tags != [] {
      var rest := Filter(tags[1..], Other(from));
      SponsorKept(tags[1..], from);
      FilterCons(tags[0], rest, SponsorTag());
      assert [] + rest == rest;
    }
  }

  lemma RetagTags(sheet: seq<seq<string>>, axis: string)
    requires HasDonor(sheet) && IsAxis(axis)
    ensures var after := Retag(sheet, axis);
      |after| == |sheet| && forall i :: 0 <= i < |sheet| ==>
        && Filter(after[i], SponsorTag()) == Filter(sheet[i], SponsorTag())
        && (!Sponsored(sheet[i]) ==> after[i] == sheet[i])
  {
    hide Filter;
    hide FirstDonor;
    hide FirstOver;
    hide Count;
    var d := FirstDonor(sheet, 0);
    var from := FirstOver(sheet, sheet[d]);
    var kept := Filter(sheet[d], Other(from));
    SponsorKept(sheet[d], from);
    FilterAppend(kept, [axis], SponsorTag());
    FilterOne(axis, SponsorTag());
    assert Filter(kept, SponsorTag()) + [] == Filter(kept, SponsorTag());
  }

  lemma RetagFair(sheet: seq<seq<string>>, axis: string)
    requires HasDonor(sheet) && IsAxis(axis) && Count(sheet, axis) < 2
    ensures Fair(sheet, Retag(sheet, axis))
  {
    hide Count;
    hide Filter;
    hide FirstDonor;
    hide FirstOver;
    hide Sponsored;
    hide Retag;
    RetagTags(sheet, axis);
    forall t | IsAxis(t)
      ensures var after := Retag(sheet, axis);
        && (Count(after, t) >= Count(sheet, t) || Count(after, t) >= 2)
        && (Count(after, t) <= Count(sheet, t) || Count(after, t) <= 2)
    {
      RetagCounts(sheet, axis, t);
    }
  }

  /** Sponsor tags decide whether a question can donate at all, so fairness composes. */
  lemma FairTransitive(a: seq<seq<string>>, b: seq<seq<string>>, c: seq<seq<string>>)
    requires Fair(a, b) && Fair(b, c)
    ensures Fair(a, c)
  {
    hide Count;
    hide Filter;
    hide Sponsored;
    hide IsAxis;
    forall i | 0 <= i < |a|
      ensures !Sponsored(a[i]) ==> c[i] == a[i]
    {
    }
  }

  lemma {:induction false} BalancedFair(sheet: seq<seq<string>>, axis: string)
    requires IsAxis(axis)
    ensures var after := Balanced(sheet, axis);
      && Fair(sheet, after)
      && (Count(after, axis) >= 2 || !HasDonor(after))
    decreases Surplus(sheet)
  {
    hide Fair;
    hide Count;
    hide HasDonor;
    if Count(sheet, axis) >= 2 || !HasDonor(sheet) {
      FairSelf(sheet);
    } else {
      var next := Retag(sheet, axis);
      RetagLowers(sheet, axis);
      RetagFair(sheet, axis);
      hide Retag;
      BalancedFair(next, axis);
      FairTransitive(sheet, next, Balanced(next, axis));
    }
  }

  lemma FairSelf(sheet: seq<seq<string>>)
    ensures Fair(sheet, sheet)
  {
  }

  lemma {:induction false} EnforcedFair(sheet: seq<seq<string>>, i: nat)
    requires i <= |AXES|
    ensures var after := Enforced(sheet, i);
      && Fair(sheet, after)
      && ((forall k :: 0 <= k < i ==> Count(after, AXES[k]) >= 2) || !HasDonor(after))
  {
    hide Fair;
    hide Count;
    hide HasDonor;
    AxesDistinct();
    if i == 0 {
      FairSelf(sheet);
    } else {
      var before := Enforced(sheet, i - 1);
      EnforcedFair(sheet, i - 1);
      BalancedFair(before, AXES[i - 1]);
      FairTransitive(sheet, before, Balanced(before, AXES[i - 1]));
      if HasDonor(before) {
        FloorsStay(before, Balanced(before, AXES[i - 1]), i - 1);
      } else {
        NoDonor(before, AXES[i - 1]);
      }
      hide Balanced;
    }
  }

  lemma NoDonor(sheet: seq<seq<string>>, axis: string)
    requires IsAxis(axis) && !HasDonor(sheet)
    ensures Balanced(sheet, axis) == sheet
  {
  }

  lemma FloorsStay(before: seq<seq<string>>, after: seq<seq<string>>, i: nat)
    requires Fair(before, after) && i <= |AXES| && forall k :: 0 <= k < i ==> Count(before, AXES[k]) >= 2
    ensures forall k :: 0 <= k < i ==> Count(after, AXES[k]) >= 2
  {
    hide Count;
    assert forall k :: 0 <= k < i ==> IsAxis(AXES[k]);
  }

  /** The questions that carry a tag. */
  ghost function Carriers(sheet: seq<seq<string>>, t: string): set<int> { set i | 0 <= i < |sheet| && t in sheet[i] }

  lemma {:induction false} CountExactly(sheet: seq<seq<string>>, t: string)
    ensures Count(sheet, t) == |Carriers(sheet, t)|
  {
    if sheet != [] {
      var n := |sheet| - 1;
      CountExactly(sheet[..n], t);
      var before := Carriers(sheet[..n], t);
      assert Carriers(sheet, t) == if t in sheet[n] then before + {n} else before;
    }
  }

  /** The question carries a tag that is no axis. */
  ghost predicate OffAxis(tags: seq<string>) { exists t :: t in tags && t !in AXES }

  /** Tag `j` of the question is an axis that more than two questions carry. */
  ghost predicate Spare(sheet: seq<seq<string>>, tags: seq<string>, j: int) {
    0 <= j < |tags| && tags[j] in AXES && |Carriers(sheet, tags[j])| > 2
  }

  /** Question `d` can give an axis away. */
  ghost predicate Gives(sheet: seq<seq<string>>, d: int) {
    0 <= d < |sheet| && OffAxis(sheet[d]) && exists j :: Spare(sheet, sheet[d], j)
  }

  ghost predicate TwoEach(sheet: seq<seq<string>>) { forall t :: t in AXES ==> |Carriers(sheet, t)| >= 2 }

  lemma SpareExactly(sheet: seq<seq<string>>, tags: seq<string>, j: int)
    ensures Spare(sheet, tags, j) <==> 0 <= j < |tags| && OverCovered(sheet, tags[j])
  {
    if 0 <= j < |tags| {
      CountExactly(sheet, tags[j]);
    }
    hide Count;
  }

  lemma GivesExactly(sheet: seq<seq<string>>, d: int)
    ensures Gives(sheet, d) <==> 0 <= d < |sheet| && Donor(sheet, sheet[d])
  {
    if 0 <= d < |sheet| {
      var tags := sheet[d];
      forall j
        ensures Spare(sheet, tags, j) <==> 0 <= j < |tags| && OverCovered(sheet, tags[j])
      {
        SpareExactly(sheet, tags, j);
      }
      hide Spare;
      hide OverCovered;
      if OffAxis(tags) {
        var t :| t in tags && t !in AXES;
        var i :| 0 <= i < |tags| && tags[i] == t;
      }
    }
  }

  lemma TwoEachExactly(sheet: seq<seq<string>>)
    ensures TwoEach(sheet) <==> Covered(sheet)
  {
    forall t
      ensures Count(sheet, t) == |Carriers(sheet, t)|
    {
      CountExactly(sheet, t);
    }
    hide Count;
    hide Carriers;
    if TwoEach(sheet) {
      forall k | 0 <= k < |AXES|
        ensures Count(sheet, AXES[k]) >= 2
      {
        assert AXES[k] in AXES;
      }
    }
  }

  lemma {:induction false} FirstOverFirst(sheet: seq<seq<string>>, tags: seq<string>) returns (j: nat)
    requires exists i :: 0 <= i < |tags| && OverCovered(sheet, tags[i])
    ensures j < |tags| && FirstOver(sheet, tags) == tags[j] && OverCovered(sheet, tags[j])
    ensures forall k :: 0 <= k < j ==> !OverCovered(sheet, tags[k])
  {
    j := 0;
    if !OverCovered(sheet, tags[0]) {
      j := FirstOverFirst(sheet, tags[1..]);
      j := j + 1;
    }
  }

  /** One retagging, exactly: the first question that can give gives up its first spare axis, every
      copy of it, and takes on the wanted axis; its other tags keep their order. */
  lemma RetagExactly(sheet: seq<seq<string>>, axis: string) returns (d: nat, j: nat)
    requires exists i :: Gives(sheet, i)
    ensures HasDonor(sheet)
    ensures Gives(sheet, d) && forall i :: 0 <= i < d ==> !Gives(sheet, i)
    ensures Spare(sheet, sheet[d], j) && forall k :: 0 <= k < j ==> !Spare(sheet, sheet[d], k)
    ensures Retag(sheet, axis) == sheet[d := Filter(sheet[d], (t: string) => t != sheet[d][j]) + [axis]]
  {
    forall i
      ensures Gives(sheet, i) <==> 0 <= i < |sheet| && Donor(sheet, sheet[i])
    {
      GivesExactly(sheet, i);
    }
    hide Gives;
    d := FirstDonor(sheet, 0);
    j := FirstOverFirst(sheet, sheet[d]);
    forall k
      ensures Spare(sheet, sheet[d], k) <==> 0 <= k < |sheet[d]| && OverCovered(sheet, sheet[d][k])
    {
      SpareExactly(sheet, sheet[d], k);
    }
    hide Spare;
    hide Donor;
    hide OverCovered;
    FilterSame(sheet[d], Other(sheet[d][j]), (t: string) => t != sheet[d][j]);
    hide Filter;
  }

  /** Tags that are no axis stay, in order; a question with axes only is untouched; no axis falls
      below two questions or, if it had fewer, below what it had; none rises above two or, if it
      had more, above what it had. */
  ghost predicate Rebalanced(before: seq<seq<string>>, after: seq<seq<string>>) {
    && |after| == |before|
    && (forall i :: 0 <= i < |before| ==>
          && Filter(after[i], (t: string) => t !in AXES) == Filter(before[i], (t: string) => t !in AXES)
          && (!OffAxis(before[i]) ==> after[i] == before[i]))
    && (forall t :: t in AXES ==>
          && (|Carriers(after, t)| >= |Carriers(before, t)| || |Carriers(after, t)| >= 2)
          && (|Carriers(after, t)| <= |Carriers(before, t)| || |Carriers(after, t)| <= 2))
  }

  lemma FairRebalances(before: seq<seq<string>>, after: seq<seq<string>>)
    requires Fair(before, after)
    ensures Rebalanced(before, after)
  {
    forall t
      ensures Count(before, t) == |Carriers(before, t)| && Count(after, t) == |Carriers(after, t)|
    {
      CountExactly(before, t);
      CountExactly(after, t);
    }
    hide Count;
    hide Carriers;
    forall i | 0 <= i < |before|
      ensures Filter(after[i], (t: string) => t !in AXES) == Filter(before[i], (t: string) => t !in AXES)
      ensures !OffAxis(before[i]) ==> !Sponsored(before[i])
    {
      FilterSame(after[i], SponsorTag(), (t: string) => t !in AXES);
      FilterSame(before[i], SponsorTag(), (t: string) => t !in AXES);
    }
    hide Filter;
    hide OffAxis;
    hide Sponsored;
  }

  /** The rebalancing ends for every sheet, is fair, and stops only when all four axes have two
      questions or no question with a tag off the axes carries an axis with more than two. */
  lemma RebalancingEnds(sheet: seq<seq<string>>)
    ensures var after := Enforced(sheet, |AXES|);
      Rebalanced(sheet, after) && (TwoEach(after) || !exists d :: Gives(after, d))
  {
    var after := Enforced(sheet, |AXES|);
    EnforcedFair(sheet, |AXES|);
    FairRebalances(sheet, after);
    Ended(after);
    hide Fair;
    hide Count;
    hide HasDonor;
  }

  lemma Ended(sheet: seq<seq<string>>)
    ensures TwoEach(sheet) <==> Covered(sheet)
    ensures (exists d :: Gives(sheet, d)) <==> HasDonor(sheet)
  {
    TwoEachExactly(sheet);
    forall d
      ensures Gives(sheet, d) <==> 0 <= d < |sheet| && Donor(sheet, sheet[d])
    {
      GivesExactly(sheet, d);
    }
    hide Gives;
    hide Donor;
    if HasDonor(sheet) {
      var d :| 0 <= d < |sheet| && Donor(sheet, sheet[d]);
      assert Gives(sheet, d);
    }
  }

  // ------------------------------------------------------------------- when a tag is dropped

  lemma {:induction false} BalancedSurplus(sheet: seq<seq<string>>, axis: string)
    requires IsAxis(axis)
    ensures Balanced(sheet, axis) == sheet || Surplus(Balanced(sheet, axis)) < Surplus(sheet)
    decreases Surplus(sheet)
  {
    hide Count;
    hide HasDonor;
    hide Retag;
    if Count(sheet, axis) < 2 && HasDonor(sheet) {
      RetagLowers(sheet, axis);
      BalancedSurplus(Retag(sheet, axis), axis);
      hide Surplus;
    }
  }

  lemma {:induction false} EnforcedSurplus(sheet: seq<seq<string>>, i: nat)
    requires i <= |AXES|
    ensures Enforced(sheet, i) == sheet || Surplus(Enforced(sheet, i)) < Surplus(sheet)
    ensures Covered(sheet) || !HasDonor(sheet) ==> Enforced(sheet, i) == sheet
  {
    hide Count;
    hide HasDonor;
    hide Surplus;
    if i > 0 {
      EnforcedSurplus(sheet, i - 1);
      BalancedSurplus(Enforced(sheet, i - 1), AXES[i - 1]);
      if !HasDonor(sheet) {
        NoDonor(sheet, AXES[i - 1]);
      }
    }
  }

  /** Where a count went down, some question lost the tag. */
  lemma {:induction false} CountDrops(before: seq<seq<string>>, after: seq<seq<string>>, t: string) returns (i: nat)
    requires |before| == |after| && Count(after, t) < Count(before, t)
    ensures i < |before| && t in before[i] && t !in after[i]
  {
    i := |before| - 1;
    if !(t in before[i] && t !in after[i]) {
      i := CountDrops(before[..i], after[..i], t);
    }
  }

  lemma LessSurplus(before: seq<seq<string>>, after: seq<seq<string>>) returns (k: nat)
    requires Surplus(after) < Surplus(before)
    ensures k < 4 && Count(after, AXES[k]) < Count(before, AXES[k])
  {
    hide Count;
    k := if Count(after, AXES[0]) < Count(before, AXES[0]) then 0
         else if Count(after, AXES[1]) < Count(before, AXES[1]) then 1
         else if Count(after, AXES[2]) < Count(before, AXES[2]) then 2 else 3;
  }

  /** Question `i` of the sheet lost its tag `t`. */
  predicate Dropped(before: seq<seq<string>>, after: seq<seq<string>>, i: nat, t: string) {
    i < |before| && i < |after| && t in before[i] && t !in after[i]
  }

  /** Rebalancing leaves the caller's questions alone exactly when every axis has two questions
      already or nobody can give; in every other case some question loses an axis tag. */
  lemma DropsExactly(sheet: seq<seq<string>>)
    ensures var after := Enforced(sheet, |AXES|);
      && (after == sheet <==> TwoEach(sheet) || !exists d :: Gives(sheet, d))
      && (after != sheet <==> exists i, t :: t in AXES && Dropped(sheet, after, i, t))
  {
    var after := Enforced(sheet, |AXES|);
    EnforcedFair(sheet, |AXES|);
    SameLength(sheet, after);
    EnforcedSurplus(sheet, |AXES|);
    Ended(sheet);
    hide Enforced;
    hide Covered;
    hide HasDonor;
    hide Fair;
    if after != sheet {
      var k := LessSurplus(sheet, after);
      AxesDistinct();
      var i := CountDrops(sheet, after, AXES[k]);
      assert AXES[k] in AXES && Dropped(sheet, after, i, AXES[k]);
    } else {
      assert Covered(sheet) || !HasDonor(sheet) by { StillEnds(sheet); }
    }
  }

  lemma SameLength(before: seq<seq<string>>, after: seq<seq<string>>)
    requires Fair(before, after)
    ensures |before| == |after|
  {
  }

  lemma StillEnds(sheet: seq<seq<string>>)
    requires Enforced(sheet, |AXES|) == sheet
    ensures Covered(sheet) || !HasDonor(sheet)
  {
    EnforcedFair(sheet, |AXES|);
  }
}
