/** The order in which projected entries are listed: plain entries first, projected ones by name. */
module Ordering {
  /** Go's `<` on strings. */
  predicate StringLess(a: string, b: string)
  {
    b != [] && (a == [] || a[0] < b[0] || (a[0] == b[0] && StringLess(a[1..], b[1..])))
  }

  lemma {:induction false} StringLessTransitive(a: string, b: string, c: string)
    requires StringLess(a, b) && StringLess(b, c)
    ensures StringLess(a, c)
  {
    if a != [] && a[0] == b[0] == c[0] {
      StringLessTransitive(a[1..], b[1..], c[1..]);
    }
  }

  lemma {:induction false} StringLessTotal(a: string, b: string)
    ensures StringLess(a, b) || a == b || StringLess(b, a)
    ensures !(StringLess(a, b) && StringLess(b, a))
    ensures !StringLess(a, a)
  {
    if a != [] {
      StringLessTotal(a[1..], a[1..]);
    }
    if a != [] && b != [] && a[0] == b[0] {
      StringLessTotal(a[1..], b[1..]);
      assert a == [a[0]] + a[1..] && b == [b[0]] + b[1..];
    }
  }

  /** The strings agree before `n`, where the first one ends or has the smaller character. */
  predicate LessAt(a: string, b: string, n: nat)
  {
    n <= |a| && n < |b| && a[..n] == b[..n] && (n == |a| || a[n] < b[n])
  }

  lemma {:induction false} LessSomewhere(a: string, b: string) returns (n: nat)
    requires StringLess(a, b)
    ensures LessAt(a, b, n)
  {
    if a == [] || a[0] < b[0] {
      n := 0;
    } else {
      n := LessSomewhere(a[1..], b[1..]);
      n := n + 1;
      assert a[..n] == [a[0]] + a[1..][..n - 1] && b[..n] == [b[0]] + b[1..][..n - 1];
    }
  }

  lemma {:induction false} LessAtIsLess(a: string, b: string, n: nat)
    requires LessAt(a, b, n)
    ensures StringLess(a, b)
    decreases n
  {
    if n > 0 {
      assert a[0] == a[..n][0] == b[..n][0] == b[0];
      assert a[1..][..n - 1] == a[..n][1..] == b[..n][1..] == b[1..][..n - 1];
      LessAtIsLess(a[1..], b[1..], n - 1);
    }
  }

  /** Strings are compared at the first place where they differ. */
  lemma StringLessExactly(a: string, b: string)
    ensures StringLess(a, b) <==> exists n :: LessAt(a, b, n)
  {
    if StringLess(a, b) {
      var n := LessSomewhere(a, b);
    }
    if n :| LessAt(a, b, n) {
      LessAtIsLess(a, b, n);
    }
  }

  /** What the comparators look at: an entry the projector does not own, or the name of one it does. */
  datatype Rank = Plain | Named(name: string)

  /** The comparator shared by the three sorts: projected entries go last, and among themselves by name. */
  predicate RankLess(a: Rank, b: Rank)
  {
    b.Named? && (a.Plain? || StringLess(a.name, b.name))
  }

  lemma RankLessCompare(a: Rank, b: Rank)
    ensures !RankLess(a, a)
    ensures RankLess(a, b) || a == b || RankLess(b, a)
    ensures !(RankLess(a, b) && RankLess(b, a))
  {
    if a.Named? {
      StringLessTotal(a.name, a.name);
    }
    if a.Named? && b.Named? {
      StringLessTotal(a.name, b.name);
    }
  }

  /** The comparator is a strict weak order whose ties are exactly equal ranks. */
  lemma RankLessStrictWeak(a: Rank, b: Rank, c: Rank)
    ensures !RankLess(a, a)
    ensures RankLess(a, b) ==> !RankLess(b, a)
    ensures RankLess(a, b) && RankLess(b, c) ==> RankLess(a, c)
    ensures !RankLess(a, b) && !RankLess(b, a) ==> a == b
    ensures !RankLess(b, a) && !RankLess(c, b) ==> !RankLess(c, a)
  {
    RankLessCompare(a, b);
    RankLessCompare(b, c);
    RankLessCompare(a, c);
    if RankLess(a, b) && RankLess(b, c) && a.Named? {
      StringLessTransitive(a.name, b.name, c.name);
    }
    if RankLess(c, a) && RankLess(a, b) && c.Named? {
      StringLessTransitive(c.name, a.name, b.name);
    }
    if RankLess(b, c) && RankLess(c, a) && b.Named? {
      StringLessTransitive(b.name, c.name, a.name);
    }
  }
}
