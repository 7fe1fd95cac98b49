/** Sequence vocabulary shared by the models: filtering, mapping and the stable
    comparison sort that JavaScript's `Array.prototype.sort` provides. */
module Sequences {

  datatype Option<+T> = None | Some(value: T)

  function Filter<T>(s: seq<T>, p: T -> bool): seq<T> {
    if s == [] then [] else (if p(s[0]) then [s[0]] else []) + Filter(s[1..], p)
  }

  function Map<T, U>(s: seq<T>, f: T -> U): (r: seq<U>)
    ensures |r| == |s|
    ensures forall i :: 0 <= i < |s| ==> r[i] == f(s[i])
  {
    if s == [] then [] else [f(s[0])] + Map(s[1..], f)
  }

  ghost predicate Distinct<T>(s: seq<T>) {
    forall i, j :: 0 <= i < j < |s| ==> s[i] != s[j]
  }

  /** The elements of `s` whose flag in `mask` equals `want`, in order. */
  function Select<T>(s: seq<T>, mask: seq<bool>, want: bool): seq<T>
    requires |s| == |mask|
  {
    if s == [] then []
    else Select(s[..|s| - 1], mask[..|s| - 1], want) + (if mask[|s| - 1] == want then [s[|s| - 1]] else [])
  }

  lemma SelectAppend<T>(s: seq<T>, mask: seq<bool>, x: T, b: bool, want: bool)
    requires |s| == |mask|
    ensures Select(s + [x], mask + [b], want) == Select(s, mask, want) + (if b == want then [x] else [])
  {
    assert (s + [x])[..|s|] == s && (mask + [b])[..|s|] == mask;
  }

  lemma {:induction false} MapAppend<T, U>(s: seq<T>, x: T, f: T -> U)
    ensures Map(s + [x], f) == Map(s, f) + [f(x)]
  {
  }

  lemma FilterCons<T>(x: T, s: seq<T>, p: T -> bool)
    ensures Filter([x] + s, p) == (if p(x) then [x] else []) + Filter(s, p)
  {
    assert ([x] + s)[1..] == s;
  }

  lemma {:induction false} FilterAppend<T>(a: seq<T>, b: seq<T>, p: T -> bool)
    ensures Filter(a + b, p) == Filter(a, p) + Filter(b, p)
  {
    if a == [] {
      assert a + b == b;
    } else {
      var x, rest := a[0], a[1..];
      FilterAppend(rest, b, p);
      FilterCons(x, rest, p);
      FilterCons(x, rest + b, p);
      hide Filter;
      assert a == [x] + rest && a + b == [x] + (rest + b);
    }
  }

  lemma {:induction false} FilterMembers<T>(s: seq<T>, p: T -> bool)
    ensures forall x :: x in Filter(s, p) <==> x in s && p(x)
  {
    if s != [] {
      FilterMembers(s[1..], p);
      assert s == [s[0]] + s[1..];
    }
  }

  lemma {:induction false} FilterAll<T>(s: seq<T>, p: T -> bool)
    requires forall x :: x in s ==> p(x)
    ensures Filter(s, p) == s
  {
    if s != [] {
      FilterAll(s[1..], p);
    }
  }

  lemma {:induction false} FilterNone<T>(s: seq<T>, p: T -> bool)
    requires forall x :: x in s ==> !p(x)
    ensures Filter(s, p) == []
  {
    if s != [] {
      FilterNone(s[1..], p);
    }
  }

  lemma {:induction false} FilterSame<T>(s: seq<T>, p: T -> bool, q: T -> bool)
    requires forall x :: x in s ==> (p(x) <==> q(x))
    ensures Filter(s, p) == Filter(s, q)
  {
    if s != [] {
      FilterSame(s[1..], p, q);
    }
  }

  // ---------------------------------------------------------------- stable sort

  /** `le(a, b)` says the comparator does not put `a` after `b`. */
  ghost predicate Preorder<T(!new)>(le: (T, T) -> bool) {
    && (forall a, b :: le(a, b) || le(b, a))
    && (forall a, b, c :: le(a, b) && le(b, c) ==> le(a, c))
  }

  ghost predicate Sorted<T>(s: seq<T>, le: (T, T) -> bool) {
    forall i, j :: 0 <= i < j < |s| ==> le(s[i], s[j])
  }

  ghost predicate StrictlySorted<T>(s: seq<T>, le: (T, T) -> bool) {
    forall i, j :: 0 <= i < j < |s| ==> le(s[i], s[j]) && !le(s[j], s[i])
  }

  function Insert<T>(x: T, s: seq<T>, le: (T, T) -> bool): seq<T> {
    if s == [] then [x]
    else if le(x, s[0]) then [x] + s
    else [s[0]] + Insert(x, s[1..], le)
  }

  function StableSort<T>(s: seq<T>, le: (T, T) -> bool): seq<T> {
    if s == [] then [] else Insert(s[0], StableSort(s[1..], le), le)
  }

  lemma {:induction false} InsertPermutes<T>(x: T, s: seq<T>, le: (T, T) -> bool)
    ensures multiset(Insert(x, s, le)) == multiset{x} + multiset(s)
  {
    if s != [] && !le(x, s[0]) {
      InsertPermutes(x, s[1..], le);
      assert s == [s[0]] + s[1..];
    }
  }

  lemma {:induction false} SortPermutes<T>(s: seq<T>, le: (T, T) -> bool)
    ensures multiset(StableSort(s, le)) == multiset(s)
    ensures |StableSort(s, le)| == |s|
  {
    if s != [] {
      SortPermutes(s[1..], le);
      InsertPermutes(s[0], StableSort(s[1..], le), le);
      assert s == [s[0]] + s[1..];
    }
    assert |multiset(StableSort(s, le))| == |multiset(s)|;
  }

  lemma SortMembers<T>(s: seq<T>, le: (T, T) -> bool)
    ensures forall x :: x in StableSort(s, le) <==> x in s
  {
    SortPermutes(s, le);
    forall x
      ensures x in StableSort(s, le) <==> x in s
    {
      assert x in multiset(StableSort(s, le)) <==> x in multiset(s);
    }
  }

  lemma {:induction false} InsertSorted<T(!new)>(x: T, s: seq<T>, le: (T, T) -> bool)
    requires Preorder(le) && Sorted(s, le)
    ensures Sorted(Insert(x, s, le), le)
  {
    if s != [] && !le(x, s[0]) {
      InsertSorted(x, s[1..], le);
      InsertPermutes(x, s[1..], le);
      var rest := Insert(x, s[1..], le);
      forall j | 0 <= j < |rest|
        ensures le(s[0], rest[j])
      {
        assert rest[j] in multiset(rest);
        assert rest[j] == x || rest[j] in s[1..];
      }
    }
  }

  lemma {:induction false} SortSorted<T(!new)>(s: seq<T>, le: (T, T) -> bool)
    requires Preorder(le)
    ensures Sorted(StableSort(s, le), le)
  {
    if s != [] {
      SortSorted(s[1..], le);
      InsertSorted(s[0], StableSort(s[1..], le), le);
    }
  }

  /** A list that is already in order comes back unchanged. */
  lemma {:induction false} SortIdentity<T>(s: seq<T>, le: (T, T) -> bool)
    requires Sorted(s, le)
    ensures StableSort(s, le) == s
  {
    if s != [] {
      SortIdentity(s[1..], le);
      if |s| > 1 {
        assert le(s[0], s[1]);
      }
    }
  }

  lemma SortedUniqueHead<T>(a: seq<T>, t: seq<T>, le: (T, T) -> bool)
    requires Sorted(a, le) && StrictlySorted(t, le) && multiset(a) == multiset(t) && a != []
    ensures t != [] && a[0] == t[0]
  {
    assert a[0] in multiset(t);
    var j :| 0 <= j < |t| && t[j] == a[0];
    assert t[0] in multiset(a);
    var i :| 0 <= i < |a| && a[i] == t[0];
    assert 0 < i ==> le(a[0], a[i]);
  }

  lemma SortedTail<T>(a: seq<T>, le: (T, T) -> bool)
    requires Sorted(a, le) && a != []
    ensures Sorted(a[1..], le)
  {
  }

  /** Two orderings of the same elements agree when one of them has no ties. */
  lemma {:induction false} SortedUnique<T>(a: seq<T>, t: seq<T>, le: (T, T) -> bool)
    requires Sorted(a, le) && StrictlySorted(t, le) && multiset(a) == multiset(t)
    ensures a == t
  {
    if a == [] {
      assert multiset(t) == multiset{};
      assert |multiset(t)| == |t|;
    } else {
      SortedUniqueHead(a, t, le);
      SortedTail(a, le);
      assert StrictlySorted(t[1..], le);
      hide Sorted;
      hide StrictlySorted;
      assert a == [a[0]] + a[1..] && t == [t[0]] + t[1..];
      assert multiset(a[1..]) == multiset(a) - multiset{a[0]};
      assert multiset(t[1..]) == multiset(t) - multiset{t[0]};
      SortedUnique(a[1..], t[1..], le);
    }
  }

  /** Sorting any rearrangement of a tie-free ordering gives that ordering. */
  lemma SortRestores<T(!new)>(s: seq<T>, t: seq<T>, le: (T, T) -> bool)
    requires Preorder(le) && StrictlySorted(t, le) && multiset(s) == multiset(t)
    ensures StableSort(s, le) == t
  {
    SortPermutes(s, le);
    SortSorted(s, le);
    SortedUnique(StableSort(s, le), t, le);
  }

  lemma FilterOne<T>(x: T, p: T -> bool)
    ensures Filter([x], p) == if p(x) then [x] else []
  {
  }

  lemma {:induction false} InsertStable<T(!new)>(x: T, s: seq<T>, le: (T, T) -> bool, p: T -> bool)
    requires forall a, b :: p(a) && p(b) ==> le(a, b)
    ensures Filter(Insert(x, s, le), p) == (if p(x) then [x] else []) + Filter(s, p)
  {
    if s == [] {
      FilterCons(x, s, p);
    } else if le(x, s[0]) {
      FilterCons(x, s, p);
    } else {
      var rest := Insert(x, s[1..], le);
      InsertStable(x, s[1..], le, p);
      FilterCons(s[0], rest, p);
      FilterCons(s[0], s[1..], p);
      assert s == [s[0]] + s[1..];
      assert Insert(x, s, le) == [s[0]] + rest;
      assert !p(x) || !p(s[0]);
    }
  }

  /** Elements the comparator ties keep their original order. */
  lemma {:induction false} SortStable<T(!new)>(s: seq<T>, le: (T, T) -> bool, p: T -> bool)
    requires forall a, b :: p(a) && p(b) ==> le(a, b)
    ensures Filter(StableSort(s, le), p) == Filter(s, p)
  {
    if s != [] {
      SortStable(s[1..], le, p);
      InsertStable(s[0], StableSort(s[1..], le), le, p);
      FilterCons(s[0], s[1..], p);
      assert s == [s[0]] + s[1..];
    }
  }

  // ---------------------------------------------------------------- distinct elements

  lemma {:induction false} OccursOnce<T>(a: seq<T>, v: T)
    requires Distinct(a)
    ensures multiset(a)[v] <= 1
  {
    if a != [] {
      var init, last := a[..|a| - 1], a[|a| - 1];
      assert a == init + [last];
      OccursOnce(init, v);
      assert last !in init;
      assert last !in multiset(init);
    }
  }

  lemma OccursTwice<T>(b: seq<T>, i: nat, j: nat)
    requires i < j < |b| && b[i] == b[j]
    ensures multiset(b)[b[i]] >= 2
  {
    assert b == b[..i] + [b[i]] + b[i + 1..] && b[i + 1..][j - i - 1] == b[i];
    assert b[i] in multiset(b[i + 1..]);
  }

  lemma DistinctPermuted<T>(a: seq<T>, b: seq<T>)
    requires Distinct(a) && multiset(a) == multiset(b)
    ensures Distinct(b)
  {
    forall i, j | 0 <= i < j < |b|
      ensures b[i] != b[j]
    {
      OccursOnce(a, b[i]);
      if b[i] == b[j] {
        OccursTwice(b, i, j);
      }
    }
  }

  lemma DistinctJoin<T>(a: seq<T>, b: seq<T>)
    requires Distinct(a) && Distinct(b) && forall x :: x in b ==> x !in a
    ensures Distinct(a + b)
  {
    forall i, j | 0 <= i < j < |a + b|
      ensures (a + b)[i] != (a + b)[j]
    {
      if j >= |a| {
        assert (a + b)[j] == b[j - |a|] && b[j - |a|] in b;
        if i >= |a| {
          assert (a + b)[i] == b[i - |a|];
        }
      }
    }
  }

  /** `indexOf`: the first position of an element, or -1. */
  function IndexOf<T(==)>(s: seq<T>, x: T): (i: int)
    ensures -1 <= i < |s|
  {
    if s == [] then -1
    else if s[0] == x then 0
    else if IndexOf(s[1..], x) < 0 then -1
    else 1 + IndexOf(s[1..], x)
  }

  lemma {:induction false} IndexOfAt<T>(a: seq<T>, x: T, rest: seq<T>)
    requires x !in a
    ensures IndexOf(a + [x] + rest, x) == |a|
  {
    if a == [] {
      assert (a + [x] + rest)[0] == x;
    } else {
      assert (a + [x] + rest)[1..] == a[1..] + [x] + rest;
      IndexOfAt(a[1..], x, rest);
    }
  }

  // ------------------------------------------------------------------- joining parts

  function Flatten<T>(parts: seq<seq<T>>): seq<T> {
    if parts == [] then [] else Flatten(parts[..|parts| - 1]) + parts[|parts| - 1]
  }

  lemma FlattenAppend<T>(parts: seq<seq<T>>, part: seq<T>)
    ensures Flatten(parts + [part]) == Flatten(parts) + part
  {
    assert (parts + [part])[..|parts|] == parts;
  }
}
