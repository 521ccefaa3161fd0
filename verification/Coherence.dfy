/**
 * The five coherence scanners. Each layer has a rule stated without reference to how it is
 * scanned (Broken) and names one offender (Names); the scanners are proved to find an offender
 * exactly when the rule is broken, and to find the one that is named.
 */
module Coherence {
  import opened Orders
  import opened Candidates
  import opened Quota

  datatype Layer = ForbiddenPairs | DimensionCaps | RegisterTags | SignatureSpread | EmbeddingSanity

  const COHERENCE_LAYERS := [ForbiddenPairs, DimensionCaps, RegisterTags, SignatureSpread, EmbeddingSanity]

  /** What a scan reads besides the selection; the cosine is any function of two vectors. */
  datatype Context = Context(q: Query, cfg: Config, cosine: (seq<real>, seq<real>) -> real)

  // ---------------------------------------------------------------------------
  // The lowest of several
  // ---------------------------------------------------------------------------

  ghost predicate Lowest(s: Scored, among: seq<Scored>) {
    s in among && forall y | y in among :: LowestFirst(s, y)
  }

  lemma LowestIsFirst(among: seq<Scored>)
    requires among != []
    ensures Lowest(SortBy(LowestFirst, among)[0], among)
  {
    var sorted := SortBy(LowestFirst, among);
    LowestFirstOrder();
    SortSorted(LowestFirst, among);
    SortByIn(LowestFirst, among);
    assert sorted[0] in sorted;
    forall y | y in among ensures LowestFirst(sorted[0], y) {
      assert y in sorted;
    }
  }

  function Lower(x: Scored, y: Scored): Scored {
    if LowestFirst(x, y) then x else y
  }

  lemma LowerIsLower(x: Scored, y: Scored)
    ensures IsLower(Lower(x, y), x, y)
  {
    StringOrder(x.c.id, y.c.id);
  }

  // ---------------------------------------------------------------------------
  // Layer 1a: forbidden register pairs
  // ---------------------------------------------------------------------------

  predicate ClashAt(ms: seq<Scored>, cfg: Config, i: nat, j: nat)
    requires i < j < |ms|
  {
    Clash(ms[i].c, ms[j].c, cfg)
  }

  ghost predicate SomePairClashes(ms: seq<Scored>, cfg: Config) {
    exists i: nat, j: nat :: i < j < |ms| && ClashAt(ms, cfg, i, j)
  }

  /** The first clashing pair in slot order. */
  ghost predicate FirstClash(ms: seq<Scored>, cfg: Config, i: nat, j: nat) {
    && i < j < |ms| && ClashAt(ms, cfg, i, j)
    && forall k: nat, l: nat | k < l < |ms| && ClashAt(ms, cfg, k, l) :: i < k || (i == k && j <= l)
  }

  /** The second of the two if it scores less, or as much with the lower id; else the first. */
  ghost predicate IsLower(s: Scored, x: Scored, y: Scored) {
    s == if y.score < x.score || (y.score == x.score && StringLess(y.c.id, x.c.id)) then y else x
  }

  ghost predicate LowerOfFirstClash(ms: seq<Scored>, cfg: Config, s: Scored) {
    exists i: nat, j: nat :: FirstClash(ms, cfg, i, j) && IsLower(s, ms[i], ms[j])
  }

  method ScanForbiddenPairs(ms: seq<Scored>, cfg: Config) returns (o: Option<Scored>)
    ensures o.Some? <==> SomePairClashes(ms, cfg)
    ensures o.Some? ==> LowerOfFirstClash(ms, cfg, o.value)
  {
    for i := 0 to |ms|
      invariant forall k: nat, l: nat | k < i && k < l < |ms| :: !ClashAt(ms, cfg, k, l)
    {
      for j := i + 1 to |ms|
        invariant forall l: nat | i < l < j :: !ClashAt(ms, cfg, i, l)
      {
        if Clash(ms[i].c, ms[j].c, cfg) {
          assert ClashAt(ms, cfg, i, j);
          assert FirstClash(ms, cfg, i, j);
          LowerIsLower(ms[i], ms[j]);
          return Some(Lower(ms[i], ms[j]));
        }
      }
    }
    o := None;
  }

  // ---------------------------------------------------------------------------
  // Layer 1b: dimension caps
  // ---------------------------------------------------------------------------

  /** A capped dimension the query does not lift, carried by more slots than its cap. */
  predicate OverCap(ms: seq<Scored>, ctx: Context, dim: string) {
    && dim in ctx.cfg.dimensionCaps
    && !CapLifted(dim, ctx.q.text, ctx.cfg)
    && var carriers := Filter(Carries(dim), ms);
       carriers != [] && |carriers| > ctx.cfg.dimensionCaps[dim]
  }

  ghost predicate SomeDimensionOverCap(ms: seq<Scored>, ctx: Context) {
    exists dim :: OverCap(ms, ctx, dim)
  }

  ghost predicate FirstOverCap(ms: seq<Scored>, ctx: Context, dim: string) {
    OverCap(ms, ctx, dim) && forall d | OverCap(ms, ctx, d) :: StringLeq(dim, d)
  }

  ghost predicate LowestOverCap(ms: seq<Scored>, ctx: Context, s: Scored) {
    exists dim :: FirstOverCap(ms, ctx, dim) && Lowest(s, Filter(Carries(dim), ms))
  }

  lemma StringLeqOrder()
    ensures TotalPreorder(StringLeq)
  {
    forall x, y ensures StringLeq(x, y) || StringLeq(y, x) { StringOrder(x, y); }
    forall x, y, z | StringLeq(x, y) && StringLeq(y, z) ensures StringLeq(x, z) { StringLeqTransitive(x, y, z); }
  }

  /** The keys of an object in whatever order it lists them. */
  method Keys(keys: set<string>) returns (s: seq<string>)
    ensures NoRepeats(s)
    ensures forall k :: k in s <==> k in keys
  {
    s := [];
    var todo := keys;
    while todo != {}
      invariant todo <= keys && NoRepeats(s)
      invariant forall k :: k in s <==> k in keys - todo
      decreases todo
    {
      ghost var some := PickOne(todo);
      assert some in todo;
      var k :| k in todo;
      assert k !in s;
      s, todo := s + [k], todo - {k};
    }
  }

  method SortedKeys(keys: set<string>) returns (s: seq<string>)
    ensures Sorted(StringLeq, s)
    ensures forall k :: k in s <==> k in keys
  {
    var unsorted := Keys(keys);
    s := SortBy(StringLeq, unsorted);
    StringLeqOrder();
    SortSorted(StringLeq, unsorted);
    SortByIn(StringLeq, unsorted);
  }

  method ScanDimensionCaps(ms: seq<Scored>, ctx: Context) returns (o: Option<Scored>)
    ensures o.Some? <==> SomeDimensionOverCap(ms, ctx)
    ensures o.Some? ==> LowestOverCap(ms, ctx, o.value)
  {
    var dims := SortedKeys(ctx.cfg.dimensionCaps.Keys);
    for n := 0 to |dims|
      invariant forall k | 0 <= k < n :: !OverCap(ms, ctx, dims[k])
    {
      var dim := dims[n];
      assert dim in dims;
      if CapLifted(dim, ctx.q.text, ctx.cfg) {
        continue;
      }
      var carriers := Filter(Carries(dim), ms);
      if |carriers| > ctx.cfg.dimensionCaps[dim] && carriers != [] {
        FirstOfSorted(dims, n, ms, ctx);
        LowestIsFirst(carriers);
        return Some(SortBy(LowestFirst, carriers)[0]);
      }
    }
    forall dim | dim in dims ensures !OverCap(ms, ctx, dim) {
      var k :| 0 <= k < |dims| && dims[k] == dim;
    }
    o := None;
  }

  lemma FirstOfSorted(dims: seq<string>, n: nat, ms: seq<Scored>, ctx: Context)
    requires n < |dims| && Sorted(StringLeq, dims) && OverCap(ms, ctx, dims[n])
    requires forall k | 0 <= k < n :: !OverCap(ms, ctx, dims[k])
    requires forall d :: d in dims <==> d in ctx.cfg.dimensionCaps.Keys
    ensures FirstOverCap(ms, ctx, dims[n])
  {
    forall d | OverCap(ms, ctx, d) ensures StringLeq(dims[n], d) {
      assert d in dims;
      var k :| 0 <= k < |dims| && dims[k] == d;
      assert k >= n;
    }
  }

  // ---------------------------------------------------------------------------
  // Layer 1c: distinct register tags
  // ---------------------------------------------------------------------------

  function CountsTags(g: GroupV): bool {
    g.kind != DispositionGroup && g.kind != ContrastGroup
  }

  /** Every register tag of every member, with repetitions. */
  function AllTags(ms: seq<Scored>, cfg: Config): seq<string>
    decreases |ms|
  {
    if ms == [] then []
    else AllTags(ms[..|ms| - 1], cfg) + RegisterTagsOf(ms[|ms| - 1].c, cfg)
  }

  function Distinct(tags: seq<string>): set<string> {
    set t | t in tags
  }

  ghost predicate TooManyTags(ms: seq<Scored>, cfg: Config) {
    |Distinct(AllTags(ms, cfg))| > cfg.coherence.maxRegisterTags
  }

  /** Commoner first, then alphabetical. */
  function CommonerFirst(counts: map<string, nat>): (string, string) -> bool {
    (t: string, u: string) =>
      var ct, cu := if t in counts then counts[t] else 0, if u in counts then counts[u] else 0;
      ct > cu || (ct == cu && StringLeq(t, u))
  }

  ghost predicate Commoner(tags: seq<string>, t: string, u: string) {
    multiset(tags)[t] > multiset(tags)[u] || (multiset(tags)[t] == multiset(tags)[u] && StringLess(t, u))
  }

  ghost function CommonerThan(tags: seq<string>, t: string): set<string> {
    set u | u in tags && Commoner(tags, u, t)
  }

  /** Fewer than `max` tags are commoner. */
  ghost predicate Allowed(tags: seq<string>, max: nat, t: string) {
    |CommonerThan(tags, t)| < max
  }

  /** An allowed tag occurs more often than one that is not, or as often and comes before it in the alphabet. */
  lemma AllowedAreCommonest(tags: seq<string>, max: nat, t: string, u: string)
    requires u in tags && Allowed(tags, max, t) && !Allowed(tags, max, u)
    ensures multiset(tags)[t] >= multiset(tags)[u]
    ensures multiset(tags)[t] == multiset(tags)[u] ==> StringLess(t, u)
  {
    StringLessTotal(t, u);
    if Commoner(tags, u, t) {
      forall v | v in CommonerThan(tags, u) ensures v in CommonerThan(tags, t) {
        if StringLess(v, u) && StringLess(u, t) { StringLessTransitive(v, u, t); }
      }
      Fewer(CommonerThan(tags, u), CommonerThan(tags, t));
    }
  }

  lemma Fewer<T>(a: set<T>, b: set<T>)
    requires a <= b
    ensures |a| <= |b|
  {
    assert b == a + (b - a);
  }

  ghost predicate CarriesDisallowed(ms: seq<Scored>, cfg: Config, s: Scored) {
    exists t | t in RegisterTagsOf(s.c, cfg) :: !Allowed(AllTags(ms, cfg), cfg.coherence.maxRegisterTags, t)
  }

  /** The lowest-scored counted slot carrying a tag outside the most common ones. */
  ghost predicate LowestDisallowed(ms: seq<Scored>, cfg: Config, s: Scored) {
    && s in ms && CarriesDisallowed(ms, cfg, s)
    && forall y | y in ms && CarriesDisallowed(ms, cfg, y) :: LowestFirst(s, y)
  }

  ghost predicate Counts(counts: map<string, nat>, tags: seq<string>) {
    && (forall t :: t in counts <==> t in tags)
    && forall t | t in counts :: counts[t] == multiset(tags)[t]
  }

  method CountTags(ms: seq<Scored>, cfg: Config) returns (counts: map<string, nat>)
    ensures Counts(counts, AllTags(ms, cfg))
  {
    counts := map[];
    for i := 0 to |ms|
      invariant Counts(counts, AllTags(ms[..i], cfg))
    {
      NextTags(ms, cfg, i);
      counts := CountSlot(counts, RegisterTagsOf(ms[i].c, cfg), AllTags(ms[..i], cfg));
    }
    assert ms[..|ms|] == ms;
  }

  lemma NextTags(ms: seq<Scored>, cfg: Config, i: nat)
    requires i < |ms|
    ensures AllTags(ms[..i + 1], cfg) == AllTags(ms[..i], cfg) + RegisterTagsOf(ms[i].c, cfg)
  {
    assert ms[..i + 1][..i] == ms[..i];
  }

  /** The tags of one slot counted on top of those before it. */
  method CountSlot(start: map<string, nat>, tags: seq<string>, ghost before: seq<string>) returns (counts: map<string, nat>)
    requires Counts(start, before)
    ensures Counts(counts, before + tags)
  {
    counts := start;
    assert before + tags[..0] == before;
    for k := 0 to |tags|
      invariant Counts(counts, before + tags[..k])
    {
      var t := tags[k];
      assert before + tags[..k + 1] == before + tags[..k] + [t];
      CountOneMore(counts, before + tags[..k], t);
      counts := counts[t := (if t in counts then counts[t] else 0) + 1];
    }
    assert tags[..|tags|] == tags;
  }

  lemma CountOneMore(counts: map<string, nat>, tags: seq<string>, t: string)
    requires Counts(counts, tags)
    ensures Counts(counts[t := (if t in counts then counts[t] else 0) + 1], tags + [t])
  {
    assert t in multiset(tags) <==> t in tags;
  }

  lemma CommonerFirstOrder(counts: map<string, nat>)
    ensures TotalPreorder(CommonerFirst(counts))
  {
    StringLeqOrder();
  }

  lemma {:induction false} DistinctPositions(s: seq<string>)
    requires NoRepeats(s)
    ensures forall i, j | 0 <= i < j < |s| :: s[i] != s[j]
    ensures |Distinct(s)| == |s|
    decreases |s|
  {
    if s != [] {
      var init, t := s[..|s| - 1], s[|s| - 1];
      assert s == init + [t];
      NoRepeatsParts(init, [t]);
      DistinctPositions(init);
      assert Distinct(s) == Distinct(init) + {t};
    }
  }

  lemma CommonerByPosition(sorted: seq<string>, counts: map<string, nat>, tags: seq<string>, i: nat, k: nat)
    requires i < |sorted| && k < |sorted| && NoRepeats(sorted) && Sorted(CommonerFirst(counts), sorted)
    requires Counts(counts, tags) && forall t :: t in sorted <==> t in tags
    ensures Commoner(tags, sorted[k], sorted[i]) <==> k < i
  {
    DistinctPositions(sorted);
    assert sorted[i] in sorted && sorted[k] in sorted;
    StringOrder(sorted[k], sorted[i]);
    if k < i {
      assert CommonerFirst(counts)(sorted[k], sorted[i]);
    } else if k > i {
      assert CommonerFirst(counts)(sorted[i], sorted[k]);
    }
  }

  /** In the sorted listing, a tag's position is the number of commoner tags. */
  lemma PositionIsRank(sorted: seq<string>, counts: map<string, nat>, tags: seq<string>, i: nat)
    requires i < |sorted| && NoRepeats(sorted) && Sorted(CommonerFirst(counts), sorted)
    requires Counts(counts, tags) && forall t :: t in sorted <==> t in tags
    ensures |CommonerThan(tags, sorted[i])| == i
  {
    var t, before := sorted[i], sorted[..i];
    assert sorted == before + sorted[i..];
    assert |Distinct(before)| == i by {
      NoRepeatsParts(before, sorted[i..]);
      DistinctPositions(before);
    }
    assert forall u | u in before :: u in sorted;
    forall k: nat | k < |sorted| ensures sorted[k] in CommonerThan(tags, t) <==> sorted[k] in before {
      CommonerByPosition(sorted, counts, tags, i, k);
      if k < i {
        assert before[k] == sorted[k];
      } else {
        NoRepeatsParts(before, sorted[i..]);
        assert sorted[i..][k - i] == sorted[k];
      }
    }
    assert CommonerThan(tags, t) == Distinct(before);
  }

  lemma InTop(sorted: seq<string>, max: nat, i: nat)
    requires i < |sorted| && NoRepeats(sorted)
    ensures sorted[i] in Take(sorted, max) <==> i < max
  {
    var top := Take(sorted, max);
    DistinctPositions(sorted);
    if i < max {
      assert top[i] == sorted[i];
    }
  }

  method MostCommon(counts: map<string, nat>, max: nat, ghost tags: seq<string>) returns (allowed: set<string>)
    requires Counts(counts, tags)
    ensures forall t | t in tags :: t in allowed <==> Allowed(tags, max, t)
  {
    var unsorted := Keys(counts.Keys);
    var sorted := SortBy(CommonerFirst(counts), unsorted);
    var top := Take(sorted, max);
    allowed := set t | t in top;
    CommonerFirstOrder(counts);
    SortSorted(CommonerFirst(counts), unsorted);
    SortByIn(CommonerFirst(counts), unsorted);
    NoRepeatsPermuted(unsorted, sorted);
    forall t | t in tags ensures t in allowed <==> Allowed(tags, max, t) {
      assert t in counts;
      var i :| 0 <= i < |sorted| && sorted[i] == t;
      PositionIsRank(sorted, counts, tags, i);
      InTop(sorted, max, i);
    }
  }

  lemma {:induction false} TagsOfMember(ms: seq<Scored>, cfg: Config, s: Scored)
    requires s in ms
    ensures forall t | t in RegisterTagsOf(s.c, cfg) :: t in AllTags(ms, cfg)
    decreases |ms|
  {
    if s != ms[|ms| - 1] {
      TagsOfMember(ms[..|ms| - 1], cfg, s);
    }
  }

  lemma {:induction false} CarrierOfTag(ms: seq<Scored>, cfg: Config, t: string) returns (s: Scored)
    requires t in AllTags(ms, cfg)
    ensures s in ms && t in RegisterTagsOf(s.c, cfg)
    decreases |ms|
  {
    if t in RegisterTagsOf(ms[|ms| - 1].c, cfg) {
      s := ms[|ms| - 1];
    } else {
      s := CarrierOfTag(ms[..|ms| - 1], cfg, t);
    }
  }

  function HasTagOutside(allowed: set<string>, cfg: Config): Scored -> bool {
    (s: Scored) => exists t | t in RegisterTagsOf(s.c, cfg) :: t !in allowed
  }

  method ScanRegisterTags(ms: seq<Scored>, cfg: Config) returns (o: Option<Scored>)
    ensures o.Some? <==> TooManyTags(ms, cfg)
    ensures o.Some? ==> LowestDisallowed(ms, cfg, o.value)
  {
    ghost var tags := AllTags(ms, cfg);
    var counts := CountTags(ms, cfg);
    assert counts.Keys == Distinct(tags);
    if |counts.Keys| <= cfg.coherence.maxRegisterTags {
      return None;
    }
    var allowed := MostCommon(counts, cfg.coherence.maxRegisterTags, tags);
    var offenders := Filter(HasTagOutside(allowed, cfg), ms);
    OffendersAreDisallowed(ms, cfg, allowed);
    SomeTagIsLeftOut(ms, cfg);
    LowestIsFirst(offenders);
    return Some(SortBy(LowestFirst, offenders)[0]);
  }

  lemma OffendersAreDisallowed(ms: seq<Scored>, cfg: Config, allowed: set<string>)
    requires forall t | t in AllTags(ms, cfg) :: t in allowed <==> Allowed(AllTags(ms, cfg), cfg.coherence.maxRegisterTags, t)
    ensures forall s :: s in Filter(HasTagOutside(allowed, cfg), ms) <==> s in ms && CarriesDisallowed(ms, cfg, s)
  {
    forall s | s in ms ensures HasTagOutside(allowed, cfg)(s) <==> CarriesDisallowed(ms, cfg, s) {
      TagsOfMember(ms, cfg, s);
    }
  }

  /** With more distinct tags than are allowed, some member carries one that is not. */
  lemma SomeTagIsLeftOut(ms: seq<Scored>, cfg: Config)
    requires TooManyTags(ms, cfg)
    ensures exists s :: s in ms && CarriesDisallowed(ms, cfg, s)
  {
    var tags, max := AllTags(ms, cfg), cfg.coherence.maxRegisterTags;
    var t := LeastCommon(tags, Distinct(tags));
    var rest := Distinct(tags) - {t};
    assert CommonerThan(tags, t) == rest;
    assert !Allowed(tags, max, t);
    var s := CarrierOfTag(ms, cfg, t);
    assert CarriesDisallowed(ms, cfg, s);
  }

  lemma CommonerTransitive(tags: seq<string>, t: string, u: string, v: string)
    requires Commoner(tags, t, u) && Commoner(tags, u, v)
    ensures Commoner(tags, t, v)
  {
    if StringLess(t, u) && StringLess(u, v) { StringLessTransitive(t, u, v); }
  }

  lemma {:induction false} LeastCommon(tags: seq<string>, among: set<string>) returns (t: string)
    requires among != {}
    ensures t in among && forall u | u in among && u != t :: Commoner(tags, u, t)
    ensures !Commoner(tags, t, t)
    decreases among
  {
    var pick := PickOne(among);
    var rest := among - {pick};
    assert forall u | u in among :: u == pick || u in rest;
    t := pick;
    if rest != {} {
      var r := LeastCommon(tags, rest);
      if Commoner(tags, pick, r) {
        t := r;
      } else {
        StringOrder(r, pick);
        assert Commoner(tags, r, pick);
        forall u | u in rest ensures Commoner(tags, u, pick) {
          if u != r { CommonerTransitive(tags, u, r, pick); }
        }
      }
    } else {
      assert forall u | u in among :: u == pick;
    }
    StringLessIrreflexive(t);
  }

  // ---------------------------------------------------------------------------
  // Layer 2: signature spread
  // ---------------------------------------------------------------------------

  function NotContrast(g: GroupV): bool {
    g.kind != ContrastGroup
  }

  /** Two members further apart than the spread allows. */
  ghost predicate Wide(ms: seq<Scored>, cfg: Config, dim: nat) {
    exists a, b :: a in ms && b in ms && Dense(a.c, dim) - Dense(b.c, dim) > cfg.coherence.spreadMax
  }

  ghost predicate SomeDimensionWide(ms: seq<Scored>, cfg: Config) {
    |ms| >= 2 && exists dim: nat :: dim < AFFECT_DIMS && Wide(ms, cfg, dim)
  }

  /** The member holds the smallest or the largest value of the dimension. */
  ghost predicate Extreme(ms: seq<Scored>, dim: nat, s: Scored) {
    || (forall y | y in ms :: Dense(s.c, dim) <= Dense(y.c, dim))
    || (forall y | y in ms :: Dense(s.c, dim) >= Dense(y.c, dim))
  }

  ghost predicate FirstExtreme(ms: seq<Scored>, dim: nat, s: Scored) {
    exists i: nat :: i < |ms| && s == ms[i] && Extreme(ms, dim, ms[i]) && forall k | 0 <= k < i :: !Extreme(ms, dim, ms[k])
  }

  ghost predicate FirstWide(ms: seq<Scored>, cfg: Config, dim: nat) {
    dim < AFFECT_DIMS && Wide(ms, cfg, dim) && forall d: nat | d < dim :: !Wide(ms, cfg, d)
  }

  ghost predicate ExtremeOfFirstWide(ms: seq<Scored>, cfg: Config, s: Scored) {
    exists dim: nat :: FirstWide(ms, cfg, dim) && FirstExtreme(ms, dim, s)
  }

  ghost predicate Bounds(ms: seq<Scored>, dim: nat, lo: real, hi: real) {
    && (forall m | m in ms :: lo <= Dense(m.c, dim) <= hi)
    && (exists m :: m in ms && Dense(m.c, dim) == lo)
    && (exists m :: m in ms && Dense(m.c, dim) == hi)
  }

  method MinMax(ms: seq<Scored>, dim: nat) returns (lo: real, hi: real)
    requires ms != []
    ensures Bounds(ms, dim, lo, hi)
  {
    lo, hi := Dense(ms[0].c, dim), Dense(ms[0].c, dim);
    assert ms[0] in ms;
    for i := 1 to |ms|
      invariant forall k | 0 <= k < i :: lo <= Dense(ms[k].c, dim) <= hi
      invariant exists k :: 0 <= k < i && Dense(ms[k].c, dim) == lo
      invariant exists k :: 0 <= k < i && Dense(ms[k].c, dim) == hi
    {
      var v := Dense(ms[i].c, dim);
      if v < lo { lo := v; }
      if v > hi { hi := v; }
    }
    forall m | m in ms ensures lo <= Dense(m.c, dim) <= hi {
      var k :| 0 <= k < |ms| && ms[k] == m;
    }
  }

  function Distance(v: real, mid: real): real {
    if v >= mid then v - mid else mid - v
  }

  /** Furthest from the midpoint means holding an extreme value. */
  lemma FurthestIsExtreme(ms: seq<Scored>, dim: nat, lo: real, hi: real, s: Scored)
    requires Bounds(ms, dim, lo, hi) && s in ms
    ensures var mid := (hi + lo) / 2.0;
            && (forall y | y in ms :: Distance(Dense(y.c, dim), mid) <= (hi - lo) / 2.0)
            && (Distance(Dense(s.c, dim), mid) == (hi - lo) / 2.0 <==> Extreme(ms, dim, s))
  {
    var low :| low in ms && Dense(low.c, dim) == lo;
    var high :| high in ms && Dense(high.c, dim) == hi;
  }

  method Furthest(ms: seq<Scored>, dim: nat, lo: real, hi: real) returns (worst: nat)
    requires Bounds(ms, dim, lo, hi)
    ensures worst < |ms| && FirstExtreme(ms, dim, ms[worst])
  {
    var mid := (hi + lo) / 2.0;
    var worstDist := -1.0;
    worst := 0;
    for i := 0 to |ms|
      invariant i == 0 ==> worstDist == -1.0
      invariant i > 0 ==> worst < i && worstDist == Distance(Dense(ms[worst].c, dim), mid)
      invariant forall k | 0 <= k < i :: Distance(Dense(ms[k].c, dim), mid) <= worstDist
      invariant forall k | 0 <= k < worst && i > 0 :: Distance(Dense(ms[k].c, dim), mid) < worstDist
    {
      var dist := Distance(Dense(ms[i].c, dim), mid);
      if dist > worstDist {
        worstDist, worst := dist, i;
      }
    }
    var low :| low in ms && Dense(low.c, dim) == lo;
    var k :| 0 <= k < |ms| && ms[k] == low;
    FurthestIsExtreme(ms, dim, lo, hi, low);
    forall i | 0 <= i <= worst ensures Extreme(ms, dim, ms[i]) <==> i == worst {
      FurthestIsExtreme(ms, dim, lo, hi, ms[i]);
      assert ms[worst] in ms;
    }
  }

  lemma WideByBounds(ms: seq<Scored>, cfg: Config, dim: nat, lo: real, hi: real)
    requires Bounds(ms, dim, lo, hi)
    ensures Wide(ms, cfg, dim) <==> hi - lo > cfg.coherence.spreadMax
  {
    var low :| low in ms && Dense(low.c, dim) == lo;
    var high :| high in ms && Dense(high.c, dim) == hi;
  }

  method ScanSpread(ms: seq<Scored>, cfg: Config) returns (o: Option<Scored>)
    ensures o.Some? <==> SomeDimensionWide(ms, cfg)
    ensures o.Some? ==> ExtremeOfFirstWide(ms, cfg, o.value)
  {
    if |ms| < 2 {
      return None;
    }
    for dim := 0 to AFFECT_DIMS
      invariant forall d: nat | d < dim :: !Wide(ms, cfg, d)
    {
      var lo, hi := MinMax(ms, dim);
      WideByBounds(ms, cfg, dim, lo, hi);
      if hi - lo <= cfg.coherence.spreadMax {
        continue;
      }
      var worst := Furthest(ms, dim, lo, hi);
      assert FirstWide(ms, cfg, dim);
      return Some(ms[worst]);
    }
    o := None;
  }

  // ---------------------------------------------------------------------------
  // Layer 3: embedding sanity
  // ---------------------------------------------------------------------------

  function HasVec(s: Scored): bool {
    s.c.vec.Some?
  }

  function Coord(v: seq<real>, i: nat): real {
    if i < |v| then v[i] else 0.0
  }

  function SumVecs(ms: seq<Scored>, i: nat): real
    requires forall m | m in ms :: m.c.vec.Some?
    decreases |ms|
  {
    if ms == [] then 0.0 else SumVecs(ms[..|ms| - 1], i) + Coord(ms[|ms| - 1].c.vec.value, i)
  }

  /** The mean of the vectors that are there, in the dimension of the first. */
  function Centroid(withVec: seq<Scored>): seq<real>
    requires forall m | m in withVec :: m.c.vec.Some?
  {
    if withVec == [] then []
    else seq(|withVec[0].c.vec.value|, i requires 0 <= i => SumVecs(withVec, i) / (|withVec| as real))
  }

  /** Off-query and off-packet, or unverifiable for want of a vector. */
  function Insane(centroid: seq<real>, ctx: Context): Scored -> bool {
    (s: Scored) =>
      && (s.c.tier == PatternTier || s.c.tier == Episode)
      && (s.c.vec.None? ||
          (&& ctx.cosine(s.c.vec.value, ctx.q.vec) < ctx.cfg.coherence.minQueryCos
           && (if |centroid| == |s.c.vec.value| then ctx.cosine(s.c.vec.value, centroid) else 0.0)
              < ctx.cfg.coherence.minCentroidCos))
  }

  function InsaneSlots(ms: seq<Scored>, ctx: Context): seq<Scored> {
    Filter(Insane(Centroid(Filter(HasVec, ms)), ctx), ms)
  }

  method ComputeCentroid(withVec: seq<Scored>) returns (centroid: seq<real>)
    requires forall m | m in withVec :: m.c.vec.Some?
    ensures centroid == Centroid(withVec)
  {
    var dim := if withVec == [] then 0 else |withVec[0].c.vec.value|;
    centroid := seq(dim, _ => 0.0);
    if withVec == [] {
      return;
    }
    for k := 0 to |withVec|
      invariant |centroid| == dim
      invariant forall i: nat | i < dim :: centroid[i] == SumVecs(withVec[..k], i)
    {
      var v := withVec[k].c.vec.value;
      assert withVec[..k + 1][..k] == withVec[..k];
      ghost var before := centroid;
      for i := 0 to dim
        invariant |centroid| == dim
        invariant forall e: nat | e < dim :: centroid[e] == if e < i then before[e] + Coord(v, e) else before[e]
      {
        centroid := centroid[i := centroid[i] + Coord(v, i)];
      }
    }
    assert withVec[..|withVec|] == withVec;
    for i := 0 to dim
      invariant |centroid| == dim
      invariant forall e: nat | e < dim ::
                  centroid[e] == if e < i then SumVecs(withVec, e) / (|withVec| as real) else SumVecs(withVec, e)
    {
      centroid := centroid[i := centroid[i] / (|withVec| as real)];
    }
  }

  method ScanEmbeddingSanity(ms: seq<Scored>, ctx: Context) returns (o: Option<Scored>)
    ensures o.Some? <==> InsaneSlots(ms, ctx) != []
    ensures o.Some? ==> Lowest(o.value, InsaneSlots(ms, ctx))
  {
    var centroid := ComputeCentroid(Filter(HasVec, ms));
    var failing := Filter(Insane(centroid, ctx), ms);
    if failing == [] {
      return None;
    }
    LowestIsFirst(failing);
    o := Some(SortBy(LowestFirst, failing)[0]);
  }

  // ---------------------------------------------------------------------------
  // The layers together
  // ---------------------------------------------------------------------------

  /** The slots a layer looks at. */
  function InScope(layer: Layer, groups: seq<GroupV>): seq<Scored> {
    match layer
    case RegisterTags => MembersOf(Filter(CountsTags, groups))
    case SignatureSpread => MembersOf(Filter(NotContrast, groups))
    case _ => MembersOf(groups)
  }

  ghost predicate Broken(layer: Layer, groups: seq<GroupV>, ctx: Context) {
    var ms := InScope(layer, groups);
    match layer
    case ForbiddenPairs => SomePairClashes(ms, ctx.cfg)
    case DimensionCaps => SomeDimensionOverCap(ms, ctx)
    case RegisterTags => TooManyTags(ms, ctx.cfg)
    case SignatureSpread => SomeDimensionWide(ms, ctx.cfg)
    case EmbeddingSanity => InsaneSlots(ms, ctx) != []
  }

  ghost predicate Names(layer: Layer, groups: seq<GroupV>, ctx: Context, s: Scored) {
    var ms := InScope(layer, groups);
    match layer
    case ForbiddenPairs => LowerOfFirstClash(ms, ctx.cfg, s)
    case DimensionCaps => LowestOverCap(ms, ctx, s)
    case RegisterTags => LowestDisallowed(ms, ctx.cfg, s)
    case SignatureSpread => ExtremeOfFirstWide(ms, ctx.cfg, s)
    case EmbeddingSanity => Lowest(s, InsaneSlots(ms, ctx))
  }

  ghost predicate Coherent(groups: seq<GroupV>, ctx: Context) {
    forall layer: Layer :: !Broken(layer, groups, ctx)
  }

  /** The first `n` layers are in order. */
  ghost predicate Clear(groups: seq<GroupV>, ctx: Context, n: nat)
    requires n <= |COHERENCE_LAYERS|
  {
    n == 0 || (Clear(groups, ctx, n - 1) && !Broken(COHERENCE_LAYERS[n - 1], groups, ctx))
  }

  ghost predicate NamedBy(n: nat, groups: seq<GroupV>, ctx: Context, s: Scored)
    requires n < |COHERENCE_LAYERS|
  {
    && Clear(groups, ctx, n)
    && Broken(COHERENCE_LAYERS[n], groups, ctx)
    && Names(COHERENCE_LAYERS[n], groups, ctx, s)
  }

  /** The first broken layer names this slot. */
  ghost predicate Violation(groups: seq<GroupV>, ctx: Context, s: Scored) {
    exists n: nat :: n < |COHERENCE_LAYERS| && NamedBy(n, groups, ctx, s)
  }

  lemma {:induction false} ClearBelow(groups: seq<GroupV>, ctx: Context, n: nat, k: nat)
    requires k < n <= |COHERENCE_LAYERS| && Clear(groups, ctx, n)
    ensures Clear(groups, ctx, k) && !Broken(COHERENCE_LAYERS[k], groups, ctx)
    decreases n
  {
    if k < n - 1 { ClearBelow(groups, ctx, n - 1, k); }
  }

  lemma AllClear(groups: seq<GroupV>, ctx: Context)
    ensures Clear(groups, ctx, |COHERENCE_LAYERS|) <==> Coherent(groups, ctx)
  {
    if Clear(groups, ctx, |COHERENCE_LAYERS|) {
      forall layer: Layer ensures !Broken(layer, groups, ctx) {
        var k := LayerIndex(layer);
        ClearBelow(groups, ctx, |COHERENCE_LAYERS|, k);
      }
    } else {
      SomeLayerBroken(groups, ctx, |COHERENCE_LAYERS|);
    }
  }

  function LayerIndex(layer: Layer): (k: nat)
    ensures k < |COHERENCE_LAYERS| && COHERENCE_LAYERS[k] == layer
  {
    match layer
    case ForbiddenPairs => 0
    case DimensionCaps => 1
    case RegisterTags => 2
    case SignatureSpread => 3
    case EmbeddingSanity => 4
  }

  lemma {:induction false} SomeLayerBroken(groups: seq<GroupV>, ctx: Context, n: nat)
    requires n <= |COHERENCE_LAYERS| && !Clear(groups, ctx, n)
    ensures !Coherent(groups, ctx)
    decreases n
  {
    if Clear(groups, ctx, n - 1) {
      assert Broken(COHERENCE_LAYERS[n - 1], groups, ctx);
    } else {
      SomeLayerBroken(groups, ctx, n - 1);
    }
  }

  method Scan(layer: Layer, groups: seq<GroupV>, ctx: Context) returns (o: Option<Scored>)
    ensures o.Some? <==> Broken(layer, groups, ctx)
    ensures o.Some? ==> Names(layer, groups, ctx, o.value)
  {
    var ms := InScope(layer, groups);
    match layer
    case ForbiddenPairs => o := ScanForbiddenPairs(ms, ctx.cfg);
    case DimensionCaps => o := ScanDimensionCaps(ms, ctx);
    case RegisterTags => o := ScanRegisterTags(ms, ctx.cfg);
    case SignatureSpread => o := ScanSpread(ms, ctx.cfg);
    case EmbeddingSanity => o := ScanEmbeddingSanity(ms, ctx);
  }

  /** The layers in their fixed order, up to the first that finds an offender. */
  method FirstViolation(groups: seq<GroupV>, ctx: Context) returns (o: Option<Scored>)
    ensures o.None? <==> Coherent(groups, ctx)
    ensures o.Some? ==> Violation(groups, ctx, o.value)
  {
    for n := 0 to |COHERENCE_LAYERS|
      invariant Clear(groups, ctx, n)
    {
      o := Scan(COHERENCE_LAYERS[n], groups, ctx);
      if o.Some? {
        assert NamedBy(n, groups, ctx, o.value);
        assert !Coherent(groups, ctx);
        return;
      }
    }
    AllClear(groups, ctx);
    o := None;
  }

  lemma MembersSnoc(groups: seq<GroupV>, g: GroupV)
    ensures MembersOf(groups + [g]) == MembersOf(groups) + g.members
  {
    assert (groups + [g])[..|groups|] == groups;
  }

  lemma {:induction false} MembersFiltered(p: GroupV -> bool, groups: seq<GroupV>)
    ensures multiset(MembersOf(Filter(p, groups))) <= multiset(MembersOf(groups))
    decreases |groups|
  {
    if groups != [] {
      var init, g := groups[..|groups| - 1], groups[|groups| - 1];
      MembersFiltered(p, init);
      assert groups == init + [g];
      FilterSnoc(p, init, g);
      MembersSnoc(init, g);
      MembersSnoc(Filter(p, init), g);
    }
  }

  lemma ScopeIsSelected(layer: Layer, groups: seq<GroupV>)
    ensures multiset(InScope(layer, groups)) <= multiset(MembersOf(groups))
    ensures UniqueIds(MembersOf(groups)) ==> UniqueIds(InScope(layer, groups))
    ensures forall s | s in InScope(layer, groups) :: s in MembersOf(groups)
  {
    var ms, all := InScope(layer, groups), MembersOf(groups);
    MembersFiltered(CountsTags, groups);
    MembersFiltered(NotContrast, groups);
    forall s | s in ms ensures s in all {
      assert s in multiset(ms) && s in multiset(all);
    }
    forall s ensures multiset(ms)[s] <= multiset(all)[s] {}
  }

  /** Whatever a layer names is one of the selected slots. */
  lemma NamedIsSelected(layer: Layer, groups: seq<GroupV>, ctx: Context, s: Scored)
    requires Names(layer, groups, ctx, s)
    ensures s in MembersOf(groups)
  {
    var ms := InScope(layer, groups);
    assert s in ms;
    ScopeIsSelected(layer, groups);
  }

  lemma CarriersOne(ms: seq<Scored>, ctx: Context, s: Scored, t: Scored)
    requires UniqueIds(ms) && LowestOverCap(ms, ctx, s) && LowestOverCap(ms, ctx, t)
    ensures s == t
  {
    var d :| FirstOverCap(ms, ctx, d) && Lowest(s, Filter(Carries(d), ms));
    var e :| FirstOverCap(ms, ctx, e) && Lowest(t, Filter(Carries(e), ms));
    StringOrder(d, e);
    StringOrder(s.c.id, t.c.id);
  }

  lemma ClashesOne(ms: seq<Scored>, cfg: Config, s: Scored, t: Scored)
    requires LowerOfFirstClash(ms, cfg, s) && LowerOfFirstClash(ms, cfg, t)
    ensures s == t
  {
    var i: nat, j: nat :| FirstClash(ms, cfg, i, j) && IsLower(s, ms[i], ms[j]);
    var k: nat, l: nat :| FirstClash(ms, cfg, k, l) && IsLower(t, ms[k], ms[l]);
    assert i == k && j == l;
  }

  lemma DisallowedOne(ms: seq<Scored>, cfg: Config, s: Scored, t: Scored)
    requires UniqueIds(ms) && LowestDisallowed(ms, cfg, s) && LowestDisallowed(ms, cfg, t)
    ensures s == t
  {
    assert LowestFirst(s, t) && LowestFirst(t, s);
    StringOrder(s.c.id, t.c.id);
  }

  lemma InsaneOne(ms: seq<Scored>, ctx: Context, s: Scored, t: Scored)
    requires UniqueIds(ms) && Lowest(s, InsaneSlots(ms, ctx)) && Lowest(t, InsaneSlots(ms, ctx))
    ensures s == t
  {
    assert s in ms && t in ms;
    StringOrder(s.c.id, t.c.id);
  }

  lemma NamesOne(layer: Layer, groups: seq<GroupV>, ctx: Context, s: Scored, t: Scored)
    requires UniqueIds(MembersOf(groups)) && Names(layer, groups, ctx, s) && Names(layer, groups, ctx, t)
    ensures s == t
  {
    var ms := InScope(layer, groups);
    assert UniqueIds(ms) by { ScopeIsSelected(layer, groups); }
    match layer
    case ForbiddenPairs => ClashesOne(ms, ctx.cfg, s, t);
    case DimensionCaps => CarriersOne(ms, ctx, s, t);
    case RegisterTags => DisallowedOne(ms, ctx.cfg, s, t);
    case SignatureSpread => ExtremesOne(ms, ctx.cfg, s, t);
    case EmbeddingSanity => InsaneOne(ms, ctx, s, t);
  }

  lemma ExtremesOne(ms: seq<Scored>, cfg: Config, s: Scored, t: Scored)
    requires ExtremeOfFirstWide(ms, cfg, s) && ExtremeOfFirstWide(ms, cfg, t)
    ensures s == t
  {
    var d: nat :| FirstWide(ms, cfg, d) && FirstExtreme(ms, d, s);
    var e: nat :| FirstWide(ms, cfg, e) && FirstExtreme(ms, e, t);
    assert d == e;
  }

  lemma FirstBrokenOne(groups: seq<GroupV>, ctx: Context, n: nat, m: nat)
    requires n < |COHERENCE_LAYERS| && m < |COHERENCE_LAYERS|
    requires Clear(groups, ctx, n) && Broken(COHERENCE_LAYERS[n], groups, ctx)
    requires Clear(groups, ctx, m) && Broken(COHERENCE_LAYERS[m], groups, ctx)
    ensures n == m
  {
    if n < m {
      ClearBelow(groups, ctx, m, n);
    } else if m < n {
      ClearBelow(groups, ctx, n, m);
    }
  }

  /** A packet without repeats has at most one offender, so the swap loop is deterministic. */
  lemma ViolationIsOne(groups: seq<GroupV>, ctx: Context, s: Scored, t: Scored)
    requires UniqueIds(MembersOf(groups)) && Violation(groups, ctx, s) && Violation(groups, ctx, t)
    ensures s == t
  {
    var n: nat :| n < |COHERENCE_LAYERS| && NamedBy(n, groups, ctx, s);
    var m: nat :| m < |COHERENCE_LAYERS| && NamedBy(m, groups, ctx, t);
    FirstBrokenOne(groups, ctx, n, m);
    NamesOne(COHERENCE_LAYERS[n], groups, ctx, s, t);
  }

  lemma ViolationIsSelected(groups: seq<GroupV>, ctx: Context, s: Scored)
    requires Violation(groups, ctx, s)
    ensures s in MembersOf(groups) && !Coherent(groups, ctx)
  {
    var n: nat :| n < |COHERENCE_LAYERS| && NamedBy(n, groups, ctx, s);
    NamedIsSelected(COHERENCE_LAYERS[n], groups, ctx, s);
  }
}
