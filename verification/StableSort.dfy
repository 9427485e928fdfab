/** Stable sorting by rank: a reference function, its uniqueness, and the laws the projector relies on. */
module StableSort {
  import opened Filtering
  import opened Ordering

  /** Tells the members of one rank class. */
  function InClass<T>(k: T -> Rank, c: Rank): T -> bool
  {
    x => k(x) == c
  }

  /** The entries of rank `c`, in the order they are listed. */
  function Class<T>(k: T -> Rank, c: Rank, s: seq<T>): seq<T>
  {
    Filter(InClass(k, c), s)
  }

  ghost predicate Sorted<T>(k: T -> Rank, s: seq<T>)
  {
    forall i, j :: 0 <= i < j < |s| ==> !RankLess(k(s[j]), k(s[i]))
  }

  /** What a stable sort promises, without saying how it is computed. */
  ghost predicate IsStableSort<T>(k: T -> Rank, s: seq<T>, r: seq<T>)
  {
    Sorted(k, r) && forall c :: Class(k, c, r) == Class(k, c, s)
  }

  function Insert<T>(k: T -> Rank, x: T, s: seq<T>): seq<T>
  {
    if s == [] then [x]
    else if RankLess(k(s[0]), k(x)) then [s[0]] + Insert(k, x, s[1..])
    else [x] + s
  }

  function Sort<T>(k: T -> Rank, s: seq<T>): seq<T>
  {
    if s == [] then [] else Insert(k, s[0], Sort(k, s[1..]))
  }

  lemma {:induction false} InsertMember<T>(k: T -> Rank, x: T, s: seq<T>)
    ensures multiset(Insert(k, x, s)) == multiset{x} + multiset(s)
  {
    if s != [] {
      assert s == [s[0]] + s[1..];
      InsertMember(k, x, s[1..]);
    }
  }

  /** Sorting only reorders. */
  lemma {:induction false} SortPermutes<T>(k: T -> Rank, s: seq<T>)
    ensures multiset(Sort(k, s)) == multiset(s)
    ensures |Sort(k, s)| == |s|
  {
    if s != [] {
      assert s == [s[0]] + s[1..];
      SortPermutes(k, s[1..]);
      InsertMember(k, s[0], Sort(k, s[1..]));
    }
    assert |multiset(Sort(k, s))| == |multiset(s)|;
  }

  lemma SortMember<T>(k: T -> Rank, s: seq<T>, x: T)
    ensures x in Sort(k, s) <==> x in s
  {
    SortPermutes(k, s);
    assert x in Sort(k, s) <==> x in multiset(Sort(k, s));
    assert x in s <==> x in multiset(s);
  }

  lemma {:induction false} InsertSorted<T>(k: T -> Rank, x: T, s: seq<T>)
    requires Sorted(k, s)
    ensures Sorted(k, Insert(k, x, s))
  {
    if s != [] {
      assert Sorted(k, s[1..]);
      if RankLess(k(s[0]), k(x)) {
        InsertSorted(k, x, s[1..]);
        var t := Insert(k, x, s[1..]);
        InsertMember(k, x, s[1..]);
        RankLessCompare(k(s[0]), k(x));
        forall j | 0 <= j < |t|
          ensures !RankLess(k(t[j]), k(s[0]))
        {
          assert t[j] in multiset(t);
          if t[j] != x {
            assert t[j] in s[1..];
            var m :| 0 <= m < |s[1..]| && s[1..][m] == t[j];
            assert s[m + 1] == t[j];
          }
        }
      } else {
        forall j | 0 <= j < |s|
          ensures !RankLess(k(s[j]), k(x))
        {
          if j > 0 {
            RankLessStrictWeak(k(x), k(s[0]), k(s[j]));
          }
        }
      }
    }
  }

  lemma ClassOfOne<T>(k: T -> Rank, x: T, c: Rank)
    ensures Class(k, c, [x]) == if k(x) == c then [x] else []
  {
    var one := [x];
    assert one[0] == x && one[1..] == [];
    assert Filter(InClass(k, c), one[1..]) == [];
  }

  lemma ClassCons<T>(k: T -> Rank, c: Rank, y: T, s: seq<T>)
    ensures Class(k, c, [y] + s) == Class(k, c, [y]) + Class(k, c, s)
  {
    FilterAppend(InClass(k, c), [y], s);
  }

  /** Entries of different rank are not in one class. */
  lemma OnesSwap<T>(k: T -> Rank, c: Rank, x: T, y: T, r: seq<T>)
    requires k(x) != k(y)
    ensures Class(k, c, [y]) + (Class(k, c, [x]) + r) == Class(k, c, [x]) + (Class(k, c, [y]) + r)
  {
    ClassOfOne(k, x, c);
    ClassOfOne(k, y, c);
    if k(x) == c {
      assert [] + ([x] + r) == [x] + ([] + r);
    } else {
      assert Class(k, c, [y]) + ([] + r) == [] + (Class(k, c, [y]) + r);
    }
  }

  lemma {:induction false} InsertClass<T>(k: T -> Rank, x: T, s: seq<T>, c: Rank)
    ensures Class(k, c, Insert(k, x, s)) == Class(k, c, [x]) + Class(k, c, s)
  {
    if s == [] {
      assert Class(k, c, s) == [];
    } else if RankLess(k(s[0]), k(x)) {
      InsertClass(k, x, s[1..], c);
      RankLessCompare(k(s[0]), k(x));
      ClassCons(k, c, s[0], Insert(k, x, s[1..]));
      ClassCons(k, c, s[0], s[1..]);
      assert s == [s[0]] + s[1..];
      OnesSwap(k, c, x, s[0], Class(k, c, s[1..]));
    } else {
      ClassCons(k, c, x, s);
    }
  }

  /** The reference function meets the promise. */
  lemma {:induction false} SortIsStable<T>(k: T -> Rank, s: seq<T>)
    ensures IsStableSort(k, s, Sort(k, s))
  {
    if s != [] {
      SortIsStable(k, s[1..]);
      InsertSorted(k, s[0], Sort(k, s[1..]));
      forall c
        ensures Class(k, c, Sort(k, s)) == Class(k, c, s)
      {
        InsertClass(k, s[0], Sort(k, s[1..]), c);
        assert s == [s[0]] + s[1..];
        FilterAppend(InClass(k, c), [s[0]], s[1..]);
      }
    }
  }

  lemma HeadNotAbove<T>(k: T -> Rank, a: seq<T>, b: seq<T>)
    requires a != [] && b != [] && Sorted(k, b)
    requires forall c :: Class(k, c, a) == Class(k, c, b)
    ensures !RankLess(k(a[0]), k(b[0]))
  {
    var c := k(a[0]);
    assert Class(k, c, a)[0] == a[0];
    FilterMember(InClass(k, c), b, a[0]);
    var i :| 0 <= i < |b| && b[i] == a[0];
    RankLessCompare(k(b[0]), k(b[0]));
  }

  lemma EmptyClasses<T>(k: T -> Rank, a: seq<T>)
    requires forall c :: Class(k, c, a) == []
    ensures a == []
  {
    assert a != [] ==> Class(k, k(a[0]), a) == [];
  }

  /** A sorted list is determined by its rank classes, so a stable sort has one possible result. */
  lemma {:induction false} SortedUnique<T>(k: T -> Rank, a: seq<T>, b: seq<T>)
    requires Sorted(k, a) && Sorted(k, b)
    requires forall c :: Class(k, c, a) == Class(k, c, b)
    ensures a == b
  {
    if a == [] {
      assert b != [] ==> Class(k, k(b[0]), a) == [];
    } else if b == [] {
      EmptyClasses(k, a);
    } else {
      HeadNotAbove(k, a, b);
      HeadNotAbove(k, b, a);
      RankLessCompare(k(a[0]), k(b[0]));
      var c0 := k(a[0]);
      assert Class(k, c0, a)[0] == a[0];
      assert Class(k, c0, b)[0] == b[0];
      forall c
        ensures Class(k, c, a[1..]) == Class(k, c, b[1..])
      {
        assert Class(k, c, a) == Class(k, c, b);
        assert Class(k, c, a[1..]) == if c == c0 then Class(k, c, a)[1..] else Class(k, c, a);
        assert Class(k, c, b[1..]) == if c == c0 then Class(k, c, b)[1..] else Class(k, c, b);
      }
      SortedUnique(k, a[1..], b[1..]);
      assert a == [a[0]] + a[1..] && b == [b[0]] + b[1..];
    }
  }

  /** Whatever algorithm meets the promise of a stable sort computes the reference function. */
  lemma StableSortIsSort<T>(k: T -> Rank, s: seq<T>, r: seq<T>)
    ensures IsStableSort(k, s, r) <==> r == Sort(k, s)
  {
    SortIsStable(k, s);
    if IsStableSort(k, s, r) {
      forall c
        ensures Class(k, c, r) == Class(k, c, Sort(k, s))
      {
        assert Class(k, c, r) == Class(k, c, s);
        assert Class(k, c, Sort(k, s)) == Class(k, c, s);
      }
      SortedUnique(k, r, Sort(k, s));
    }
  }

  lemma SortOfSorted<T>(k: T -> Rank, s: seq<T>)
    requires Sorted(k, s)
    ensures Sort(k, s) == s
  {
    StableSortIsSort(k, s, s);
  }

  lemma SortIsSorted<T>(k: T -> Rank, s: seq<T>)
    ensures Sorted(k, Sort(k, s))
  {
    SortIsStable(k, s);
  }

  lemma {:induction false} SortedFilter<T>(k: T -> Rank, p: T -> bool, s: seq<T>)
    requires Sorted(k, s)
    ensures Sorted(k, Filter(p, s))
  {
    if s != [] {
      assert Sorted(k, s[1..]);
      SortedFilter(k, p, s[1..]);
      var t := Filter(p, s[1..]);
      forall j | 0 <= j < |t|
        ensures !RankLess(k(t[j]), k(s[0]))
      {
        FilterMember(p, s[1..], t[j]);
        var m :| 0 <= m < |s[1..]| && s[1..][m] == t[j];
        assert s[m + 1] == t[j];
      }
    }
  }

  /** Removing entries commutes with sorting. */
  lemma FilterSort<T>(k: T -> Rank, p: T -> bool, s: seq<T>)
    ensures Filter(p, Sort(k, s)) == Sort(k, Filter(p, s))
  {
    SortIsStable(k, s);
    SortedFilter(k, p, Sort(k, s));
    var r := Filter(p, Sort(k, s));
    forall c
      ensures Class(k, c, r) == Class(k, c, Filter(p, s))
    {
      FilterCommutes(InClass(k, c), p, Sort(k, s));
      FilterCommutes(InClass(k, c), p, s);
      assert Class(k, c, Sort(k, s)) == Class(k, c, s);
    }
    StableSortIsSort(k, Filter(p, s), r);
  }

  /** Sorting what has been sorted before and then extended is sorting once. */
  lemma SortAbsorbs<T>(k: T -> Rank, a: seq<T>, b: seq<T>)
    ensures Sort(k, Sort(k, a) + b) == Sort(k, a + b)
  {
    SortIsStable(k, a);
    SortIsStable(k, Sort(k, a) + b);
    var r := Sort(k, Sort(k, a) + b);
    forall c
      ensures Class(k, c, r) == Class(k, c, a + b)
    {
      FilterAppend(InClass(k, c), Sort(k, a), b);
      FilterAppend(InClass(k, c), a, b);
      assert Class(k, c, Sort(k, a)) == Class(k, c, a);
      assert Class(k, c, r) == Class(k, c, Sort(k, a) + b);
    }
    StableSortIsSort(k, a + b, r);
  }

  /** Entries of one rank are left in their order. */
  lemma OneRankSorted<T>(k: T -> Rank, p: T -> bool, s: seq<T>, c: Rank)
    requires forall x :: x in s && p(x) ==> k(x) == c
    ensures Filter(p, Sort(k, s)) == Filter(p, s)
  {
    var f := Filter(p, s);
    FilterSort(k, p, s);
    forall i | 0 <= i < |f|
      ensures k(f[i]) == c
    {
      FilterMember(p, s, f[i]);
    }
    RankLessCompare(c, c);
    SortOfSorted(k, f);
  }

  /** An entry of the highest rank that arrives last is listed last. */
  lemma LastStaysLast<T>(k: T -> Rank, s: seq<T>, x: T)
    requires forall y :: y in s ==> !RankLess(k(x), k(y))
    ensures Sort(k, s + [x]) == Sort(k, s) + [x]
  {
    var t := Sort(k, s);
    SortIsStable(k, s);
    forall i | 0 <= i < |t|
      ensures !RankLess(k(x), k(t[i]))
    {
      SortMember(k, s, t[i]);
    }
    forall c
      ensures Class(k, c, t + [x]) == Class(k, c, s + [x])
    {
      FilterAppend(InClass(k, c), t, [x]);
      FilterAppend(InClass(k, c), s, [x]);
      assert Class(k, c, t) == Class(k, c, s);
    }
    StableSortIsSort(k, s + [x], t + [x]);
  }

  lemma FilterThree<T>(p: T -> bool, a: seq<T>, b: seq<T>, c: seq<T>)
    ensures Filter(p, a + b + c) == Filter(p, a) + Filter(p, b) + Filter(p, c)
  {
    FilterAppend(p, a + b, c);
    FilterAppend(p, a, b);
  }

  lemma OneClassOnly<T>(k: T -> Rank, b: seq<T>, c: seq<T>, d: Rank)
    requires forall x, y :: x in b && y in c ==> k(x) != k(y)
    ensures Class(k, d, b) == [] || Class(k, d, c) == []
  {
    var p := InClass(k, d);
    if Filter(p, b) != [] && Filter(p, c) != [] {
      FilterMember(p, b, Filter(p, b)[0]);
      FilterMember(p, c, Filter(p, c)[0]);
      assert false;
    }
  }

  lemma ClassSwaps<T>(k: T -> Rank, a: seq<T>, b: seq<T>, c: seq<T>, d: Rank)
    requires forall x, y :: x in b && y in c ==> k(x) != k(y)
    ensures Class(k, d, a + b + c) == Class(k, d, a + c + b)
  {
    OneClassOnly(k, b, c, d);
    FilterThree(InClass(k, d), a, b, c);
    FilterThree(InClass(k, d), a, c, b);
  }

  /** Batches that share no rank may arrive in either order. */
  lemma SortSwaps<T>(k: T -> Rank, a: seq<T>, b: seq<T>, c: seq<T>)
    requires forall x, y :: x in b && y in c ==> k(x) != k(y)
    ensures Sort(k, a + b + c) == Sort(k, a + c + b)
  {
    var r := Sort(k, a + b + c);
    SortIsStable(k, a + b + c);
    forall d
      ensures Class(k, d, r) == Class(k, d, a + c + b)
    {
      ClassSwaps(k, a, b, c, d);
      assert Class(k, d, r) == Class(k, d, a + b + c);
    }
    StableSortIsSort(k, a + c + b, r);
  }

  /** Removing entries the last batch has none of. */
  lemma FilterSortKeeps<T>(k: T -> Rank, p: T -> bool, a: seq<T>, added: seq<T>)
    requires forall x :: x in added ==> p(x)
    ensures Filter(p, Sort(k, a + added)) == Sort(k, Filter(p, a) + added)
  {
    FilterSort(k, p, a + added);
    FilterAppend(p, a, added);
    FilterAll(p, added);
  }

  /** Removing the last batch. */
  lemma FilterSortDrops<T>(k: T -> Rank, p: T -> bool, a: seq<T>, added: seq<T>)
    requires forall x :: x in added ==> !p(x)
    ensures Filter(p, Sort(k, a + added)) == Sort(k, Filter(p, a))
  {
    FilterSort(k, p, a + added);
    FilterAppend(p, a, added);
    FilterNone(p, added);
    assert Filter(p, a) + [] == Filter(p, a);
  }

  /** Two extend-and-sort steps whose batches share no rank commute. */
  lemma AppendSortsCommute<T>(k: T -> Rank, a: seq<T>, b: seq<T>, c: seq<T>)
    requires forall x, y :: x in b && y in c ==> k(x) != k(y)
    ensures Sort(k, Sort(k, a + b) + c) == Sort(k, Sort(k, a + c) + b)
  {
    SortAbsorbs(k, a + b, c);
    SortAbsorbs(k, a + c, b);
    SortSwaps(k, a, b, c);
  }

  lemma {:induction false} InsertCongruent<T>(k: T -> Rank, l: T -> Rank, x: T, s: seq<T>)
    requires k(x) == l(x) && forall y :: y in s ==> k(y) == l(y)
    ensures Insert(k, x, s) == Insert(l, x, s)
  {
    if s != [] {
      assert s[0] in s;
      assert forall y :: y in s[1..] ==> y in s;
      InsertCongruent(k, l, x, s[1..]);
    }
  }

  /** The result depends only on the ranks of the entries listed. */
  lemma {:induction false} SortCongruent<T>(k: T -> Rank, l: T -> Rank, s: seq<T>)
    requires forall y :: y in s ==> k(y) == l(y)
    ensures Sort(k, s) == Sort(l, s)
  {
    if s != [] {
      assert s[0] in s;
      assert forall y :: y in s[1..] ==> y in s;
      SortCongruent(k, l, s[1..]);
      forall y | y in Sort(k, s[1..])
        ensures k(y) == l(y)
      {
        SortMember(k, s[1..], y);
      }
      InsertCongruent(k, l, s[0], Sort(k, s[1..]));
    }
  }

  /** `r` holds exactly the kept and the added entries. The plain ones come first, the projected ones follow in
      name order, and entries of equal rank stand in order of arrival, the added ones last. */
  ghost predicate Arranged<T>(k: T -> Rank, kept: seq<T>, added: seq<T>, r: seq<T>)
  {
    && multiset(r) == multiset(kept) + multiset(added)
    && (forall i, j :: 0 <= i < j < |r| && k(r[j]).Plain? ==> k(r[i]).Plain?)
    && (forall i, j :: 0 <= i < j < |r| && k(r[i]).Named? && k(r[j]).Named? ==> !StringLess(k(r[j]).name, k(r[i]).name))
    && (forall c :: Class(k, c, r) == Class(k, c, kept) + Class(k, c, added))
  }

  lemma ArrangedIsStable<T>(k: T -> Rank, kept: seq<T>, added: seq<T>, r: seq<T>)
    requires Arranged(k, kept, added, r)
    ensures IsStableSort(k, kept + added, r)
  {
    forall c
      ensures Class(k, c, kept + added) == Class(k, c, kept) + Class(k, c, added)
    {
      FilterAppend(InClass(k, c), kept, added);
    }
    assert Sorted(k, r);
  }

  lemma SortIsArranged<T>(k: T -> Rank, kept: seq<T>, added: seq<T>)
    ensures Arranged(k, kept, added, Sort(k, kept + added))
  {
    var r := Sort(k, kept + added);
    SortIsStable(k, kept + added);
    SortPermutes(k, kept + added);
    forall c
      ensures Class(k, c, r) == Class(k, c, kept) + Class(k, c, added)
    {
      FilterAppend(InClass(k, c), kept, added);
      assert Class(k, c, r) == Class(k, c, kept + added);
    }
  }

  /** That description has exactly one solution, and extend-then-sort finds it. */
  lemma ArrangedExactly<T>(k: T -> Rank, kept: seq<T>, added: seq<T>, r: seq<T>)
    ensures Arranged(k, kept, added, r) <==> r == Sort(k, kept + added)
  {
    SortIsArranged(k, kept, added);
    if Arranged(k, kept, added, r) {
      ArrangedIsStable(k, kept, added, r);
      StableSortIsSort(k, kept + added, r);
    }
  }

  lemma SwapKeepsClasses<T>(k: T -> Rank, s: seq<T>, j: nat)
    requires 0 < j < |s| && RankLess(k(s[j]), k(s[j - 1]))
    ensures forall c :: Class(k, c, s[j - 1 := s[j]][j := s[j - 1]]) == Class(k, c, s)
  {
    var a, x, y, b := s[..j - 1], [s[j - 1]], [s[j]], s[j + 1..];
    assert s == a + x + y + b;
    assert s[j - 1 := s[j]][j := s[j - 1]] == a + y + x + b;
    RankLessCompare(k(s[j]), k(s[j - 1]));
    forall c
      ensures Class(k, c, a + y + x + b) == Class(k, c, a + x + y + b)
    {
      ClassSwaps(k, a, x, y, c);
      FilterAppend(InClass(k, c), a + x + y, b);
      FilterAppend(InClass(k, c), a + y + x, b);
    }
  }

  /** Go's sort.SliceStable on a short slice: insertion by adjacent swaps. */
  method SliceStable<T>(k: T -> Rank, s: seq<T>) returns (r: seq<T>)
    ensures r == Sort(k, s)
  {
    r := s;
    var i := 1;
    while i < |s|
      invariant |r| == |s|
      invariant |s| == 0 || 1 <= i <= |s|
      invariant forall m, n :: 0 <= m < n < i && n < |r| ==> !RankLess(k(r[n]), k(r[m]))
      invariant forall c :: Class(k, c, r) == Class(k, c, s)
    {
      var j := i;
      while j > 0 && RankLess(k(r[j]), k(r[j - 1]))
        invariant 0 <= j <= i < |s| == |r|
        invariant forall m, n :: 0 <= m < n <= i && n != j ==> !RankLess(k(r[n]), k(r[m]))
        invariant forall n :: j < n <= i ==> RankLess(k(r[j]), k(r[n]))
        invariant forall c :: Class(k, c, r) == Class(k, c, s)
      {
        SwapKeepsClasses(k, r, j);
        ghost var before := r;
        r := r[j - 1 := r[j]][j := r[j - 1]];
        RankLessCompare(k(before[j]), k(before[j - 1]));
        j := j - 1;
      }
      forall m, n | 0 <= m < n <= i
        ensures !RankLess(k(r[n]), k(r[m]))
      {
        if n == j && m < j - 1 {
          RankLessStrictWeak(k(r[m]), k(r[j - 1]), k(r[j]));
        }
      }
      i := i + 1;
    }
    StableSortIsSort(k, s, r);
  }
}
