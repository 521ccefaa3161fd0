/** Total orders and the stable sort behind every `Array.prototype.sort` of the program. */
module Orders {

  datatype Option<+T> = None | Some(value: T)

  // ---------------------------------------------------------------------------
  // compareStrings: code-unit lexicographic order
  // ---------------------------------------------------------------------------

  predicate StringLess(a: string, b: string) {
    |b| > 0 && (|a| == 0 || a[0] < b[0] || (a[0] == b[0] && StringLess(a[1..], b[1..])))
  }

  predicate StringLeq(a: string, b: string) {
    a == b || StringLess(a, b)
  }

  lemma {:induction false} StringLessIrreflexive(a: string)
    ensures !StringLess(a, a)
  {
    if a != "" { StringLessIrreflexive(a[1..]); }
  }

  lemma {:induction false} StringLessTransitive(a: string, b: string, c: string)
    requires StringLess(a, b) && StringLess(b, c)
    ensures StringLess(a, c)
  {
    if a != "" && a[0] == b[0] && b[0] == c[0] {
      StringLessTransitive(a[1..], b[1..], c[1..]);
    }
  }

  lemma {:induction false} StringLessTotal(a: string, b: string)
    ensures a == b || StringLess(a, b) || StringLess(b, a)
  {
    if a != "" && b != "" && a[0] == b[0] {
      StringLessTotal(a[1..], b[1..]);
      assert a == [a[0]] + a[1..] && b == [b[0]] + b[1..];
    }
  }

  ghost predicate LowerAt(a: string, b: string, k: nat) {
    k <= |a| && k < |b| && a[..k] == b[..k] && (k == |a| || a[k] < b[k])
  }

  lemma LowerHeads(a: string, b: string, k: nat)
    requires LowerAt(a, b, k) && k > 0
    ensures a != "" && b != "" && a[0] == b[0]
  {
    assert a[0] == a[..k][0] && b[0] == b[..k][0];
  }

  /** A string is less exactly when it runs out first, or has the lower code unit where the two first differ. */
  lemma {:induction false} StringLessWhere(a: string, b: string)
    ensures StringLess(a, b) <==> exists k: nat :: LowerAt(a, b, k)
  {
    if b != "" && a != "" && a[0] == b[0] {
      StringLessWhere(a[1..], b[1..]);
      if k: nat :| LowerAt(a[1..], b[1..], k) {
        assert a[..k + 1] == [a[0]] + a[1..][..k] && b[..k + 1] == [b[0]] + b[1..][..k];
        assert LowerAt(a, b, k + 1);
      }
      if k: nat :| LowerAt(a, b, k) {
        assert k > 0;
        assert a[1..][..k - 1] == a[..k][1..] && b[1..][..k - 1] == b[..k][1..];
        assert LowerAt(a[1..], b[1..], k - 1);
      }
    } else {
      if StringLess(a, b) { assert LowerAt(a, b, 0); }
      if k: nat :| LowerAt(a, b, k) && k > 0 {
        LowerHeads(a, b, k);
      }
    }
  }

  /** compareStrings is a total order: exactly one of less, equal, greater. */
  lemma StringOrder(a: string, b: string)
    ensures StringLeq(a, b) || StringLeq(b, a)
    ensures StringLeq(a, b) && StringLeq(b, a) ==> a == b
    ensures !(StringLess(a, b) && a == b)
  {
    StringLessTotal(a, b);
    if StringLess(a, b) && StringLess(b, a) {
      StringLessTransitive(a, b, a);
    }
    StringLessIrreflexive(a);
  }

  lemma StringLeqTransitive(a: string, b: string, c: string)
    requires StringLeq(a, b) && StringLeq(b, c)
    ensures StringLeq(a, c)
  {
    if StringLess(a, b) && StringLess(b, c) {
      StringLessTransitive(a, b, c);
    }
  }

  // ---------------------------------------------------------------------------
  // The stable sort
  // ---------------------------------------------------------------------------

  ghost predicate TotalPreorder<T(!new)>(le: (T, T) -> bool) {
    && (forall x, y :: le(x, y) || le(y, x))
    && (forall x, y, z :: le(x, y) && le(y, z) ==> le(x, z))
  }

  ghost predicate Antisymmetric<T(!new)>(le: (T, T) -> bool, s: seq<T>) {
    forall x, y | x in s && y in s :: le(x, y) && le(y, x) ==> x == y
  }

  ghost predicate Sorted<T>(le: (T, T) -> bool, s: seq<T>) {
    forall i, j | 0 <= i < j < |s| :: le(s[i], s[j])
  }

  function Insert<T>(le: (T, T) -> bool, x: T, s: seq<T>): (r: seq<T>)
    ensures |r| == |s| + 1
    ensures multiset(r) == multiset(s) + multiset{x}
  {
    if s == [] then [x]
    else if le(x, s[0]) then [x] + s
    else
      assert s == [s[0]] + s[1..];
      [s[0]] + Insert(le, x, s[1..])
  }

  /** `[...s].sort(cmp)` with `le(x, y)` for `cmp(x, y) <= 0`; equal elements keep their order. */
  function SortBy<T>(le: (T, T) -> bool, s: seq<T>): (r: seq<T>)
    ensures |r| == |s|
    ensures multiset(r) == multiset(s)
  {
    if s == [] then []
    else
      assert s == [s[0]] + s[1..];
      Insert(le, s[0], SortBy(le, s[1..]))
  }

  lemma MultisetIn<T>(a: seq<T>, b: seq<T>)
    requires multiset(a) == multiset(b)
    ensures forall x :: x in a <==> x in b
    ensures |a| == |b|
  {
    forall x ensures x in a <==> x in b {
      assert x in a <==> x in multiset(a);
      assert x in b <==> x in multiset(b);
    }
    assert |multiset(a)| == |a| && |multiset(b)| == |b|;
  }

  lemma SortByIn<T>(le: (T, T) -> bool, s: seq<T>)
    ensures forall x :: x in SortBy(le, s) <==> x in s
  {
    MultisetIn(SortBy(le, s), s);
  }

  lemma {:induction false} InsertSorted<T(!new)>(le: (T, T) -> bool, x: T, s: seq<T>)
    requires TotalPreorder(le) && Sorted(le, s)
    ensures Sorted(le, Insert(le, x, s))
  {
    if s != [] && !le(x, s[0]) {
      InsertSorted(le, x, s[1..]);
      var t := Insert(le, x, s[1..]);
      forall y | y in t ensures le(s[0], y) {
        assert y in multiset(t);
        assert y == x || y in s[1..];
      }
    }
  }

  lemma {:induction false} SortSorted<T(!new)>(le: (T, T) -> bool, s: seq<T>)
    requires TotalPreorder(le)
    ensures Sorted(le, SortBy(le, s))
  {
    if s != [] {
      SortSorted(le, s[1..]);
      InsertSorted(le, s[0], SortBy(le, s[1..]));
    }
  }

  lemma {:induction false} SortOfSorted<T(!new)>(le: (T, T) -> bool, s: seq<T>)
    requires Sorted(le, s)
    ensures SortBy(le, s) == s
  {
    if s != [] {
      SortOfSorted(le, s[1..]);
      assert s == [s[0]] + s[1..];
      if |s| > 1 { assert le(s[0], s[1]); }
    }
  }

  lemma SortedHeads<T(!new)>(le: (T, T) -> bool, a: seq<T>, b: seq<T>)
    requires Sorted(le, a) && Sorted(le, b) && multiset(a) == multiset(b) && a != []
    requires Antisymmetric(le, a)
    ensures b != [] && a[0] == b[0]
  {
    MultisetIn(a, b);
    assert a[0] in b && b[0] in a;
    var i :| 0 <= i < |b| && b[i] == a[0];
    var j :| 0 <= j < |a| && a[j] == b[0];
    if i != 0 && j != 0 {
      assert le(b[0], b[i]) && le(a[0], a[j]);
    }
  }

  /** Two sorted arrangements of the same elements are the same list when ties mean equality. */
  lemma {:induction false} SortedUnique<T(!new)>(le: (T, T) -> bool, a: seq<T>, b: seq<T>)
    requires Sorted(le, a) && Sorted(le, b) && multiset(a) == multiset(b)
    requires Antisymmetric(le, a)
    ensures a == b
  {
    if a == [] {
      MultisetIn(a, b);
    } else {
      SortedHeads(le, a, b);
      assert a == [a[0]] + a[1..] && b == [b[0]] + b[1..];
      assert multiset(a[1..]) == multiset(a) - multiset{a[0]};
      assert multiset(b[1..]) == multiset(b) - multiset{b[0]};
      SortedUnique(le, a[1..], b[1..]);
    }
  }

  /** Sorting forgets the input order when ties mean equality. */
  lemma SortOrderFree<T(!new)>(le: (T, T) -> bool, a: seq<T>, b: seq<T>)
    requires TotalPreorder(le) && multiset(a) == multiset(b) && Antisymmetric(le, a)
    ensures SortBy(le, a) == SortBy(le, b)
  {
    SortSorted(le, a);
    SortSorted(le, b);
    SortByIn(le, a);
    SortedUnique(le, SortBy(le, a), SortBy(le, b));
  }

  /** The stable sort treats a common prefix alike. */
  lemma {:induction false} SortWithPrefix<T>(le: (T, T) -> bool, prefix: seq<T>, a: seq<T>, b: seq<T>)
    requires SortBy(le, a) == SortBy(le, b)
    ensures SortBy(le, prefix + a) == SortBy(le, prefix + b)
  {
    if prefix == [] {
      assert prefix + a == a && prefix + b == b;
    } else {
      SortWithPrefix(le, prefix[1..], a, b);
      SortHead(le, prefix, a);
      SortHead(le, prefix, b);
    }
  }

  lemma SortHead<T>(le: (T, T) -> bool, prefix: seq<T>, s: seq<T>)
    requires prefix != []
    ensures SortBy(le, prefix + s) == Insert(le, prefix[0], SortBy(le, prefix[1..] + s))
  {
    assert (prefix + s)[0] == prefix[0] && (prefix + s)[1..] == prefix[1..] + s;
  }

  // ---------------------------------------------------------------------------
  // Lists without repetition
  // ---------------------------------------------------------------------------

  ghost predicate NoRepeats<T>(s: seq<T>) {
    forall i, j | 0 <= i < j < |s| :: s[i] != s[j]
  }

  lemma NoRepeatsParts<T>(a: seq<T>, b: seq<T>)
    requires NoRepeats(a + b)
    ensures NoRepeats(a) && NoRepeats(b)
    ensures forall x | x in b :: x !in a
  {
    var s := a + b;
    assert forall i | 0 <= i < |a| :: a[i] == s[i];
    assert forall i | 0 <= i < |b| :: b[i] == s[|a| + i];
  }

  lemma {:induction false} NoRepeatsCounts<T>(s: seq<T>)
    requires NoRepeats(s)
    ensures forall x :: multiset(s)[x] <= 1
    decreases |s|
  {
    if s != [] {
      var init, last := s[..|s| - 1], s[|s| - 1];
      assert s == init + [last];
      NoRepeatsParts(init, [last]);
      NoRepeatsCounts(init);
      assert last !in multiset(init);
    }
  }

  lemma NoRepeatsPermuted<T>(a: seq<T>, b: seq<T>)
    requires NoRepeats(a) && multiset(a) == multiset(b)
    ensures NoRepeats(b)
  {
    NoRepeatsCounts(a);
    forall i, j | 0 <= i < j < |b| ensures b[i] != b[j] {
      var front, back := b[..j], b[j..];
      assert b == front + back;
      assert front[i] in multiset(front) && back[0] in multiset(back);
      assert multiset(b)[b[j]] == multiset(front)[b[j]] + multiset(back)[b[j]];
    }
  }

  // ---------------------------------------------------------------------------
  // Array.prototype.filter
  // ---------------------------------------------------------------------------

  function Filter<T(!new)>(p: T -> bool, s: seq<T>): (r: seq<T>)
    ensures forall x :: x in r <==> x in s && p(x)
    ensures |r| <= |s|
  {
    if s == [] then []
    else
      assert forall x :: x in s <==> x == s[0] || x in s[1..];
      (if p(s[0]) then [s[0]] else []) + Filter(p, s[1..])
  }

  lemma {:induction false} FilterAppend<T(!new)>(p: T -> bool, a: seq<T>, b: seq<T>)
    ensures Filter(p, a + b) == Filter(p, a) + Filter(p, b)
  {
    if a == [] {
      assert a + b == b;
    } else {
      assert (a + b)[0] == a[0] && (a + b)[1..] == a[1..] + b;
      FilterAppend(p, a[1..], b);
    }
  }

  lemma FilterSnoc<T(!new)>(p: T -> bool, s: seq<T>, x: T)
    ensures Filter(p, s + [x]) == if p(x) then Filter(p, s) + [x] else Filter(p, s)
  {
    FilterAppend(p, s, [x]);
    assert Filter(p, [x]) == if p(x) then [x] else [];
  }

  /** Filtering by more first takes nothing from what the narrower filter keeps. */
  lemma {:induction false} FilterTwice<T(!new)>(p: T -> bool, q: T -> bool, s: seq<T>)
    requires forall x | x in s && p(x) :: q(x)
    ensures Filter(p, Filter(q, s)) == Filter(p, s)
    decreases |s|
  {
    if s != [] {
      var init, x := s[..|s| - 1], s[|s| - 1];
      assert s == init + [x] && x in s && forall y | y in init :: y in s;
      FilterTwice(p, q, init);
      FilterSnoc(p, init, x);
      FilterSnoc(q, init, x);
      if q(x) { FilterSnoc(p, Filter(q, init), x); }
    }
  }

  lemma {:induction false} FilterEvery<T(!new)>(p: T -> bool, s: seq<T>)
    requires forall x | x in s :: p(x)
    ensures Filter(p, s) == s
  {
    if s != [] {
      FilterEvery(p, s[1..]);
      assert s == [s[0]] + s[1..];
    }
  }

  lemma {:induction false} FilterNone<T(!new)>(p: T -> bool, s: seq<T>)
    requires forall x | x in s :: !p(x)
    ensures Filter(p, s) == []
  {
    if s != [] { FilterNone(p, s[1..]); }
  }

  lemma {:induction false} FilterMultiset<T(!new)>(p: T -> bool, s: seq<T>)
    ensures forall x :: multiset(Filter(p, s))[x] == if p(x) then multiset(s)[x] else 0
  {
    if s != [] {
      assert s == [s[0]] + s[1..];
      FilterMultiset(p, s[1..]);
    }
  }

  lemma {:induction false} FilterSorted<T(!new)>(le: (T, T) -> bool, p: T -> bool, s: seq<T>)
    requires Sorted(le, s)
    ensures Sorted(le, Filter(p, s))
  {
    if s != [] {
      FilterSorted(le, p, s[1..]);
      forall y | y in Filter(p, s[1..]) ensures le(s[0], y) {
        assert y in s[1..];
      }
    }
  }

  /** Filtering permuted lists yields permuted lists. */
  lemma FilterPermuted<T(!new)>(p: T -> bool, a: seq<T>, b: seq<T>)
    requires multiset(a) == multiset(b)
    ensures multiset(Filter(p, a)) == multiset(Filter(p, b))
  {
    FilterMultiset(p, a);
    FilterMultiset(p, b);
  }

  /** A witness that a set is not empty. */
  ghost function PickOne<T>(s: set<T>): (x: T)
    requires s != {}
    ensures x in s
  {
    var x :| x in s; x
  }

  function Take<T>(s: seq<T>, n: nat): (r: seq<T>) {
    if n <= |s| then s[..n] else s
  }

  function Drop<T>(s: seq<T>, n: nat): (r: seq<T>) {
    if n <= |s| then s[n..] else []
  }
}
