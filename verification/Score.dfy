/**
 * Rank normalisation. The loop over runs of ties computes, for every value, the mean of the
 * 1-based positions its ties occupy in sorted order, divided by the number of values.
 */
module Score {
  import opened Orders

  // ---------------------------------------------------------------------------
  // The rank, without sorting
  // ---------------------------------------------------------------------------

  ghost function BelowIn(values: seq<real>, v: real): set<int> {
    set k | 0 <= k < |values| && values[k] < v
  }

  ghost function AtMostIn(values: seq<real>, v: real): set<int> {
    set k | 0 <= k < |values| && values[k] <= v
  }

  ghost function Below(values: seq<real>, v: real): nat {
    |BelowIn(values, v)|
  }

  ghost function AtMost(values: seq<real>, v: real): nat {
    |AtMostIn(values, v)|
  }

  /** The mean of positions Below + 1 .. AtMost, over the number of values. */
  ghost function Rank(values: seq<real>, v: real): real
    requires values != []
  {
    (Below(values, v) + 1 + AtMost(values, v)) as real / 2.0 / |values| as real
  }

  // ---------------------------------------------------------------------------
  // Sorted positions
  // ---------------------------------------------------------------------------

  function At(values: seq<real>, k: int): real {
    if 0 <= k < |values| then values[k] else 0.0
  }

  function ByValue(values: seq<real>): (int, int) -> bool {
    (x: int, y: int) => At(values, x) < At(values, y) || (At(values, x) == At(values, y) && x <= y)
  }

  function Indices(n: nat): seq<int> {
    seq(n, i => i)
  }

  ghost predicate Once(s: seq<int>) {
    forall i, j | 0 <= i < j < |s| :: s[i] != s[j]
  }

  ghost function Elements(s: seq<int>): set<int> {
    set x | x in s
  }

  lemma {:induction false} OnceSize(s: seq<int>)
    requires Once(s)
    ensures |Elements(s)| == |s|
    decreases |s|
  {
    if s != [] {
      var init, x := s[..|s| - 1], s[|s| - 1];
      OnceSize(init);
      assert Elements(s) == Elements(init) + {x};
      assert x !in init;
    }
  }

  /** A sorted listing of the positions: each exactly once, values rising. */
  ghost predicate Listing(order: seq<int>, values: seq<real>) {
    && |order| == |values| && Once(order)
    && (forall a | 0 <= a < |order| :: 0 <= order[a] < |values|)
    && (forall k | 0 <= k < |values| :: k in order)
    && forall a, b | 0 <= a <= b < |order| :: values[order[a]] <= values[order[b]]
  }

  lemma ByValueOrder(values: seq<real>)
    ensures TotalPreorder(ByValue(values))
  {
  }

  lemma {:induction false} OncePermuted(n: nat, s: seq<int>)
    requires multiset(s) == multiset(Indices(n))
    ensures Once(s)
  {
    IndicesOnce(n);
    forall i, j | 0 <= i < j < |s| ensures s[i] != s[j] {
      assert s == s[..j] + [s[j]] + s[j + 1..];
      assert multiset(s) == multiset(s[..j]) + multiset{s[j]} + multiset(s[j + 1..]);
      assert multiset(s)[s[j]] <= 1;
      assert s[j] !in multiset(s[..j]);
      assert s[..j][i] == s[i] && s[i] in multiset(s[..j]);
    }
  }

  lemma {:induction false} IndicesOnce(n: nat)
    ensures forall k :: multiset(Indices(n))[k] == if 0 <= k < n then 1 else 0
  {
    if n > 0 {
      IndicesOnce(n - 1);
      assert Indices(n) == Indices(n - 1) + [n - 1];
    }
  }

  lemma SortedListing(values: seq<real>)
    ensures Listing(SortBy(ByValue(values), Indices(|values|)), values)
  {
    var n := |values|;
    var order := SortBy(ByValue(values), Indices(n));
    ByValueOrder(values);
    SortSorted(ByValue(values), Indices(n));
    SortByIn(ByValue(values), Indices(n));
    OncePermuted(n, order);
    forall a | 0 <= a < |order| ensures 0 <= order[a] < n {
      assert order[a] in order;
      assert order[a] in Indices(n);
    }
    forall k | 0 <= k < n ensures k in order {
      assert Indices(n)[k] == k;
    }
    forall a, b | 0 <= a <= b < |order| ensures values[order[a]] <= values[order[b]] {
      assert order[a] in order && order[b] in order;
      if a < b { assert ByValue(values)(order[a], order[b]); }
    }
  }

  /** A run of ties in sorted order starts after everything below and ends with everything at most. */
  lemma RunBounds(order: seq<int>, values: seq<real>, i: nat, j: nat, v: real)
    requires Listing(order, values) && i <= j <= |order|
    requires forall a | 0 <= a < i :: values[order[a]] < v
    requires forall a | i <= a < j :: values[order[a]] == v
    requires forall a | j <= a < |order| :: values[order[a]] > v
    ensures Below(values, v) == i && AtMost(values, v) == j
  {
    PrefixIs(order, values, i, BelowIn(values, v));
    PrefixIs(order, values, j, AtMostIn(values, v));
  }

  lemma PrefixIs(order: seq<int>, values: seq<real>, i: nat, s: set<int>)
    requires Listing(order, values) && i <= |order|
    requires forall a | 0 <= a < |order| :: order[a] in s <==> a < i
    requires forall k | k in s :: 0 <= k < |values|
    ensures |s| == i
  {
    OnceSize(order[..i]);
    forall k ensures k in s <==> k in order[..i] {
      if k in s {
        assert k in order;
        var a :| 0 <= a < |order| && order[a] == k;
        assert order[..i][a] == k;
      }
    }
    assert s == Elements(order[..i]);
  }

  // ---------------------------------------------------------------------------
  // rankNormalize
  // ---------------------------------------------------------------------------

  method RankNormalize(values: seq<real>) returns (out: array<real>)
    ensures fresh(out) && out.Length == |values|
    ensures forall k | 0 <= k < |values| :: out[k] == Rank(values, values[k])
  {
    var n := |values|;
    out := new real[n];
    if n == 0 {
      return;
    }
    var order := SortBy(ByValue(values), Indices(n));
    SortedListing(values);
    var i := 0;
    while i < |order|
      invariant 0 <= i <= |order|
      invariant forall a, b | 0 <= a < i <= b < |order| :: values[order[a]] < values[order[b]]
      invariant forall a | 0 <= a < i :: out[order[a]] == Rank(values, values[order[a]])
    {
      var j := TieEnd(order, values, i);
      RunBounds(order, values, i, j, values[order[i]]);
      var avgRank := (i + 1 + j) as real / 2.0;
      for k := i to j
        invariant forall a | 0 <= a < k :: out[order[a]] == Rank(values, values[order[a]])
      {
        assert order[k] in order;
        out[order[k]] := avgRank / n as real;
      }
      i := j;
    }
    forall k | 0 <= k < n ensures out[k] == Rank(values, values[k]) {
      assert k in order;
      var a :| 0 <= a < |order| && order[a] == k;
    }
  }

  method TieEnd(order: seq<int>, values: seq<real>, i: nat) returns (j: nat)
    requires Listing(order, values) && i < |order|
    ensures i < j <= |order|
    ensures forall a | i <= a < j :: values[order[a]] == values[order[i]]
    ensures forall a | j <= a < |order| :: values[order[a]] > values[order[i]]
  {
    j := i;
    while j < |order| && values[order[j]] == values[order[i]]
      invariant i <= j <= |order|
      invariant forall a | i <= a < j :: values[order[a]] == values[order[i]]
    {
      j := j + 1;
    }
    assert j < |order| ==> values[order[j]] >= values[order[i]];
  }

  // ---------------------------------------------------------------------------
  // What a rank means
  // ---------------------------------------------------------------------------

  lemma SubsetSize(a: set<int>, b: set<int>)
    requires a <= b
    ensures |a| <= |b|
    ensures a != b ==> |a| < |b|
  {
    assert b == a + (b - a);
  }

  lemma CountsOrdered(values: seq<real>, u: real, v: real)
    requires u < v && u in values && v in values
    ensures Below(values, u) < Below(values, v) && AtMost(values, u) < AtMost(values, v)
  {
    var i :| 0 <= i < |values| && values[i] == u;
    var j :| 0 <= j < |values| && values[j] == v;
    assert i in BelowIn(values, v) && i !in BelowIn(values, u);
    assert j in AtMostIn(values, v) && j !in AtMostIn(values, u);
    SubsetSize(BelowIn(values, u), BelowIn(values, v));
    SubsetSize(AtMostIn(values, u), AtMostIn(values, v));
  }

  lemma DivideOrdered(a: real, b: real, n: real)
    requires n > 0.0
    ensures a < b <==> a / n < b / n
  {
  }

  lemma RankRises(values: seq<real>, u: real, v: real)
    requires u < v && u in values && v in values
    ensures Rank(values, u) < Rank(values, v)
  {
    CountsOrdered(values, u, v);
    var a := (Below(values, u) + 1 + AtMost(values, u)) as real / 2.0;
    var b := (Below(values, v) + 1 + AtMost(values, v)) as real / 2.0;
    assert a < b;
    DivideOrdered(a, b, |values| as real);
  }

  /** Ranks order the pool exactly as the values do, and ties stay ties. */
  lemma RankKeepsOrder(values: seq<real>, u: real, v: real)
    requires u in values && v in values
    ensures u < v <==> Rank(values, u) < Rank(values, v)
    ensures u == v <==> Rank(values, u) == Rank(values, v)
  {
    if u < v {
      RankRises(values, u, v);
    } else if v < u {
      RankRises(values, v, u);
    }
  }

  lemma IndexRange(n: nat)
    ensures |Elements(Indices(n))| == n
    ensures forall k :: k in Elements(Indices(n)) <==> 0 <= k < n
  {
    OnceSize(Indices(n));
    forall k | 0 <= k < n ensures k in Indices(n) {
      assert Indices(n)[k] == k;
    }
  }

  lemma CountBounds(values: seq<real>, v: real)
    requires v in values
    ensures Below(values, v) < AtMost(values, v) <= |values|
    ensures Below(values, v) == |values| - 1 <==>
            exists i :: 0 <= i < |values| && values[i] == v && forall k | 0 <= k < |values| && k != i :: values[k] < v
  {
    var all := Elements(Indices(|values|));
    var i :| 0 <= i < |values| && values[i] == v;
    IndexRange(|values|);
    assert i in AtMostIn(values, v) && i !in BelowIn(values, v);
    SubsetSize(BelowIn(values, v), AtMostIn(values, v));
    SubsetSize(AtMostIn(values, v), all);
    assert |all - {i}| == |values| - 1;
    SubsetSize(BelowIn(values, v), all - {i});
    if Below(values, v) == |values| - 1 {
      assert BelowIn(values, v) == all - {i};
      forall k | 0 <= k < |values| && k != i ensures values[k] < v { assert k in all - {i}; }
    }
    if i' :| 0 <= i' < |values| && values[i'] == v && forall k | 0 <= k < |values| && k != i' :: values[k] < v {
      assert i' == i;
      assert BelowIn(values, v) == all - {i};
    }
  }

  lemma DivideRange(a: real, n: real)
    requires 0.0 < a <= n
    ensures 0.0 < a / n <= 1.0
    ensures a / n == 1.0 <==> a == n
  {
    assert a / n * n == a;
  }

  /** Every rank lies in (0, 1]; it is 1 exactly for a value that stands alone at the top. */
  lemma RankRange(values: seq<real>, v: real)
    requires v in values
    ensures 0.0 < Rank(values, v) <= 1.0
    ensures Rank(values, v) == 1.0 <==>
            exists i :: 0 <= i < |values| && values[i] == v && forall k | 0 <= k < |values| && k != i :: values[k] < v
  {
    CountBounds(values, v);
    var n, a := |values| as real, (Below(values, v) + 1 + AtMost(values, v)) as real / 2.0;
    assert n > 0.0 && 0.0 < a <= n;
    DivideRange(a, n);
    assert a == n <==> Below(values, v) + 1 + AtMost(values, v) == 2 * |values|;
  }

  ghost predicate SameOrder(values: seq<real>, scaled: seq<real>) {
    |values| == |scaled| &&
    forall j, k | 0 <= j < |values| && 0 <= k < |values| :: values[j] < values[k] <==> scaled[j] < scaled[k]
  }

  /** Any strictly increasing rescaling of the pool leaves every rank as it was. */
  lemma RankIgnoresScale(values: seq<real>, scaled: seq<real>, k: nat)
    requires SameOrder(values, scaled) && k < |values|
    ensures Rank(values, values[k]) == Rank(scaled, scaled[k])
  {
    assert BelowIn(values, values[k]) == BelowIn(scaled, scaled[k]);
    assert AtMostIn(values, values[k]) == AtMostIn(scaled, scaled[k]);
  }

  // ---------------------------------------------------------------------------
  // The sum of the ranks
  // ---------------------------------------------------------------------------

  lemma BelowSnoc(values: seq<real>, x: real, v: real)
    ensures Below(values + [x], v) == Below(values, v) + (if x < v then 1 else 0)
  {
    var n, more := |values|, values + [x];
    assert forall k | 0 <= k < n :: more[k] == values[k];
    if x < v {
      assert BelowIn(more, v) == BelowIn(values, v) + {n};
    } else {
      assert BelowIn(more, v) == BelowIn(values, v);
    }
  }

  lemma AtMostSnoc(values: seq<real>, x: real, v: real)
    ensures AtMost(values + [x], v) == AtMost(values, v) + (if x <= v then 1 else 0)
  {
    var n, more := |values|, values + [x];
    assert forall k | 0 <= k < n :: more[k] == values[k];
    if x <= v {
      assert AtMostIn(more, v) == AtMostIn(values, v) + {n};
    } else {
      assert AtMostIn(more, v) == AtMostIn(values, v);
    }
  }

  lemma CountSnoc(values: seq<real>, x: real, v: real)
    ensures Below(values + [x], v) == Below(values, v) + (if x < v then 1 else 0)
    ensures AtMost(values + [x], v) == AtMost(values, v) + (if x <= v then 1 else 0)
  {
    BelowSnoc(values, x, v);
    AtMostSnoc(values, x, v);
  }

  /** Twice the positions of the first `m` values, less one each: Below + AtMost. */
  ghost function Positions(values: seq<real>, m: nat): nat
    requires m <= |values|
  {
    if m == 0 then 0
    else Positions(values, m - 1) + Below(values, values[m - 1]) + AtMost(values, values[m - 1])
  }

  /** A newcomer moves every value above it by two and every tie by one. */
  lemma {:induction false} PositionsWithNewcomer(values: seq<real>, x: real, m: nat)
    requires m <= |values|
    ensures Positions(values + [x], m) == Positions(values, m) + 2 * m - Below(values[..m], x) - AtMost(values[..m], x)
  {
    if m > 0 {
      PositionsWithNewcomer(values, x, m - 1);
      var v := values[m - 1];
      assert (values + [x])[m - 1] == v;
      CountSnoc(values, x, v);
      assert values[..m] == values[..m - 1] + [v];
      CountSnoc(values[..m - 1], v, x);
    }
  }

  lemma {:induction false} PositionsSquare(values: seq<real>)
    ensures Positions(values, |values|) == |values| * |values|
    decreases |values|
  {
    if values != [] {
      var init, x := values[..|values| - 1], values[|values| - 1];
      assert values == init + [x] && init[..|init|] == init;
      PositionsSquare(init);
      PositionsWithNewcomer(init, x, |init|);
      CountSnoc(init, x, x);
      NextSquare(|init|);
    }
  }

  lemma NextSquare(m: nat)
    ensures (m + 1) * (m + 1) == m * m + 2 * m + 1
  {
  }

  ghost function SumRanks(values: seq<real>, m: nat): real
    requires m <= |values| && values != []
  {
    if m == 0 then 0.0 else SumRanks(values, m - 1) + Rank(values, values[m - 1])
  }

  lemma {:induction false} SumByPositions(values: seq<real>, m: nat)
    requires m <= |values| && values != []
    ensures SumRanks(values, m) * (2.0 * |values| as real) == (Positions(values, m) + m) as real
  {
    if m > 0 {
      SumByPositions(values, m - 1);
      var n, c := |values| as real, (Below(values, values[m - 1]) + 1 + AtMost(values, values[m - 1])) as real;
      assert c / 2.0 / n * (2.0 * n) == c;
      assert SumRanks(values, m) * (2.0 * n) == SumRanks(values, m - 1) * (2.0 * n) + c / 2.0 / n * (2.0 * n);
    }
  }

  lemma ProductAsReal(a: nat, b: nat)
    ensures (a * b) as real == a as real * b as real
  {
  }

  lemma HalfOfNext(s: real, n: nat)
    requires n > 0 && s * (2.0 * n as real) == (n * n + n) as real
    ensures s == (n + 1) as real / 2.0
  {
    var r, m := n as real, (n + 1) as real;
    assert n * n + n == n * (n + 1);
    ProductAsReal(n, n + 1);
    assert s * (2.0 * r) == r * m;
    assert (s * 2.0 - m) * r == 0.0;
  }

  /** Ranks are conserved: they add up to (n + 1) / 2 whatever the ties. */
  lemma RanksSum(values: seq<real>)
    requires values != []
    ensures SumRanks(values, |values|) == (|values| + 1) as real / 2.0
  {
    SumByPositions(values, |values|);
    PositionsSquare(values);
    HalfOfNext(SumRanks(values, |values|), |values|);
  }
}
