/**
 * What the fill chooses, told over its groups and the pool: each group holds the best of what it may
 * hold, the contrast group the candidates furthest from the rest of the packet.
 */
module FillMaximal {
  import opened Orders
  import opened Candidates
  import opened Quota

  // ---------------------------------------------------------------------------
  // Who comes before whom
  // ---------------------------------------------------------------------------

  /** A higher score, or the same with the lower id. */
  predicate Outscores(x: Scored, y: Scored) {
    x.score > y.score || (x.score == y.score && StringLess(x.c.id, y.c.id))
  }

  /** With strict registers the pool is cut before; otherwise what fits the register comes first. */
  predicate Precedes(x: Scored, y: Scored, q: Query, cfg: Config) {
    var fitsX, fitsY := cfg.strict || ModeCompatible(x.c, q.register, cfg), cfg.strict || ModeCompatible(y.c, q.register, cfg);
    (fitsX && !fitsY) || (fitsX == fitsY && Outscores(x, y))
  }

  predicate Lived(s: Scored) {
    s.c.tier == Episode || s.c.tier == Memory
  }

  predicate Seed(s: Scored) {
    s.c.tier == PatternTier || (s.c.tier == Disposition && s.c.source != Canon)
  }

  function ByScore(): (Scored, Scored) -> bool {
    (x: Scored, y: Scored) => Outscores(x, y)
  }

  function ByFit(q: Query, cfg: Config): (Scored, Scored) -> bool {
    (x: Scored, y: Scored) => Precedes(x, y, q, cfg)
  }

  function LivedFirst(q: Query, cfg: Config): (Scored, Scored) -> bool {
    (x: Scored, y: Scored) => (Lived(x) && !Lived(y)) || (Lived(x) == Lived(y) && Precedes(x, y, q, cfg))
  }

  /** Further from the mean of the other slots, or as far and ahead by score. */
  function Further(others: seq<Scored>): (Scored, Scored) -> bool {
    (x: Scored, y: Scored) =>
      var dx, dy := Dissimilarity(x.c, MeanDense(others)), Dissimilarity(y.c, MeanDense(others));
      dx > dy || (dx == dy && Outscores(x, y))
  }

  // ---------------------------------------------------------------------------
  // Who may be in which group
  // ---------------------------------------------------------------------------

  /** Not in another slot already, and, with strict registers, of the query's register. */
  predicate Free(s: Scored, selected: seq<Scored>, q: Query, cfg: Config) {
    && (forall m | m in selected :: m.c.id != s.c.id)
    && (cfg.strict ==> ModeCompatible(s.c, q.register, cfg))
  }

  function MayBeDisposition(): Scored -> bool {
    (s: Scored) => s.c.tier == Disposition && s.c.source == Canon
  }

  function MayBePattern(selected: seq<Scored>, q: Query, cfg: Config): Scored -> bool {
    (s: Scored) => Free(s, selected, q, cfg) && Seed(s)
  }

  function MayBeEpisode(selected: seq<Scored>, q: Query, cfg: Config): Scored -> bool {
    (s: Scored) => Free(s, selected, q, cfg) && (Lived(s) || Seed(s))
  }

  function MayBeContrast(selected: seq<Scored>, q: Query, cfg: Config): Scored -> bool {
    (s: Scored) =>
      && Free(s, selected, q, cfg)
      && !ForbiddenPairConflict(s.c, selected, cfg)
      && !DimensionCapConflict(s.c, selected, cfg, q.text)
  }

  // ---------------------------------------------------------------------------
  // The best of the pool
  // ---------------------------------------------------------------------------

  /** No later one comes before an earlier one. */
  ghost predicate InOrder(before: (Scored, Scored) -> bool, s: seq<Scored>) {
    forall i, j | 0 <= i < j < |s| :: !before(s[j], s[i])
  }

  /**
   * The group holds members of the pool that may be in it, best first. Nobody else who may be in it
   * comes before a member, and it is short of its quota only when nobody else may be in it. The
   * others are its runners-up, best first.
   */
  ghost predicate HoldsTheBest(g: GroupV, quota: nat, pool: seq<Scored>, may: Scored -> bool, before: (Scored, Scored) -> bool) {
    && |g.members| <= quota
    && (forall m | m in g.members || m in g.runners :: m in pool && may(m))
    && (forall x | x in pool && may(x) && x !in g.members :: x in g.runners)
    && (forall x, m | x in pool && may(x) && x !in g.members && m in g.members :: !before(x, m))
    && (|g.members| < quota ==> forall x | x in pool && may(x) :: x in g.members)
    && InOrder(before, g.members) && InOrder(before, g.runners)
  }

  lemma CutHoldsTheBest(kind: GroupKind, min: nat, quota: nat, ranked: seq<Scored>, pool: seq<Scored>,
                        may: Scored -> bool, before: (Scored, Scored) -> bool)
    requires forall x :: x in ranked <==> x in pool && may(x)
    requires InOrder(before, ranked)
    ensures HoldsTheBest(Filled(kind, min, ranked, quota), quota, pool, may, before)
  {
    var g := Filled(kind, min, ranked, quota);
    assert ranked == g.members + g.runners;
    assert forall i | 0 <= i < |g.members| :: ranked[i] == g.members[i];
    assert forall i | 0 <= i < |g.runners| :: ranked[|g.members| + i] == g.runners[i];
    forall x, m | x in pool && may(x) && x !in g.members && m in g.members ensures !before(x, m) {
      assert x in ranked;
      var i :| 0 <= i < |g.members| && g.members[i] == m;
      var j :| 0 <= j < |ranked| && ranked[j] == x;
      assert j >= |g.members|;
    }
  }

  /** Sorting by a total order leaves nothing before what it precedes. */
  lemma SortedInOrder(le: (Scored, Scored) -> bool, before: (Scored, Scored) -> bool, s: seq<Scored>)
    requires TotalPreorder(le) && forall x, y :: le(x, y) ==> !before(y, x)
    ensures InOrder(before, SortBy(le, s))
    ensures forall x :: x in SortBy(le, s) <==> x in s
  {
    SortSorted(le, s);
    SortByIn(le, s);
  }

  lemma BestIsNotOutscored()
    ensures forall x, y :: BestFirst(x, y) ==> !Outscores(y, x)
  {
    forall x, y | BestFirst(x, y) ensures !Outscores(y, x) {
      StringOrder(x.c.id, y.c.id);
      StringOrder(y.c.id, x.c.id);
    }
  }

  lemma FillOrderFits(q: Query, cfg: Config)
    ensures TotalPreorder(FillOrder(q, cfg))
    ensures forall x, y :: FillOrder(q, cfg)(x, y) ==> !Precedes(y, x, q, cfg)
  {
    BestFirstOrder();
    BestIsNotOutscored();
  }

  lemma ContrastIsFurthest(others: seq<Scored>)
    ensures TotalPreorder(ContrastOrder(MeanDense(others)))
    ensures forall x, y :: ContrastOrder(MeanDense(others))(x, y) ==> !Further(others)(y, x)
  {
    BestFirstOrder();
    BestIsNotOutscored();
  }

  // ---------------------------------------------------------------------------
  // Group by group
  // ---------------------------------------------------------------------------

  lemma DispositionBest(pool: seq<Scored>, cfg: Config)
    ensures HoldsTheBest(FillDisposition(pool, cfg), cfg.quotas.disposition, pool, MayBeDisposition(), ByScore())
  {
    BestFirstOrder();
    BestIsNotOutscored();
    var ranked := SortBy(BestFirst, Filter(IsCanonDisposition, pool));
    SortedInOrder(BestFirst, ByScore(), Filter(IsCanonDisposition, pool));
    CutHoldsTheBest(DispositionGroup, cfg.quotas.disposition, cfg.quotas.disposition, ranked, pool, MayBeDisposition(), ByScore());
  }

  lemma UnusedIsFree(s: Scored, selected: seq<Scored>, q: Query, cfg: Config)
    ensures ModeOk(s, q, cfg) && s.c.id !in IdsOf(selected) <==> Free(s, selected, q, cfg)
  {
    if m :| m in selected && m.c.id == s.c.id {
      assert m.c.id in IdsOf(selected);
    }
  }

  lemma PatternBest(pool: seq<Scored>, selected: seq<Scored>, q: Query, cfg: Config)
    ensures HoldsTheBest(FillPattern(pool, selected, q, cfg), cfg.quotas.pattern, pool, MayBePattern(selected, q, cfg), ByFit(q, cfg))
  {
    var p := ForPattern(IdsOf(selected), q, cfg);
    FillOrderFits(q, cfg);
    SortedInOrder(FillOrder(q, cfg), ByFit(q, cfg), Filter(p, pool));
    forall s ensures p(s) <==> MayBePattern(selected, q, cfg)(s) {
      UnusedIsFree(s, selected, q, cfg);
    }
    CutHoldsTheBest(PatternGroup, cfg.quotas.pattern, cfg.quotas.pattern, SortBy(FillOrder(q, cfg), Filter(p, pool)),
                    pool, MayBePattern(selected, q, cfg), ByFit(q, cfg));
  }

  lemma LivedThenSeeds(lives: seq<Scored>, seeds: seq<Scored>, q: Query, cfg: Config)
    requires InOrder(ByFit(q, cfg), lives) && InOrder(ByFit(q, cfg), seeds)
    requires (forall s | s in lives :: Lived(s)) && (forall s | s in seeds :: Seed(s))
    ensures InOrder(LivedFirst(q, cfg), lives + seeds)
  {
    var all := lives + seeds;
    forall i, j | 0 <= i < j < |all| ensures !LivedFirst(q, cfg)(all[j], all[i]) {
      var x, y := all[i], all[j];
      if j < |lives| {
        assert x == lives[i] && y == lives[j] && x in lives && y in lives;
        assert !ByFit(q, cfg)(lives[j], lives[i]);
        assert Lived(x) && Lived(y);
      } else if i < |lives| {
        assert x == lives[i] && y == seeds[j - |lives|] && x in lives && y in seeds;
        assert Lived(x) && !Lived(y);
      } else {
        assert x == seeds[i - |lives|] && y == seeds[j - |lives|] && x in seeds && y in seeds;
        assert !ByFit(q, cfg)(seeds[j - |lives|], seeds[i - |lives|]);
        assert !Lived(x) && !Lived(y);
      }
    }
  }

  lemma EpisodesBest(pool: seq<Scored>, selected: seq<Scored>, q: Query, cfg: Config)
    ensures HoldsTheBest(FillEpisodes(pool, selected, q, cfg), cfg.quotas.episodeMemoryMax, pool,
                         MayBeEpisode(selected, q, cfg), LivedFirst(q, cfg))
  {
    var used := IdsOf(selected);
    var lives, seeds := LiveMemory(pool, used, q, cfg), Backfill(pool, used, q, cfg);
    FillOrderFits(q, cfg);
    SortedInOrder(FillOrder(q, cfg), ByFit(q, cfg), Filter(ForLiveMemory(used, q, cfg), pool));
    SortedInOrder(FillOrder(q, cfg), ByFit(q, cfg), Filter(ForPattern(used, q, cfg), pool));
    LivedThenSeeds(lives, seeds, q, cfg);
    forall s ensures s in lives + seeds <==> s in pool && MayBeEpisode(selected, q, cfg)(s) {
      UnusedIsFree(s, selected, q, cfg);
    }
    CutHoldsTheBest(EpisodeMemoryGroup, cfg.quotas.episodeMemoryMin, cfg.quotas.episodeMemoryMax, lives + seeds,
                    pool, MayBeEpisode(selected, q, cfg), LivedFirst(q, cfg));
  }

  lemma ContrastBest(pool: seq<Scored>, selected: seq<Scored>, q: Query, cfg: Config)
    ensures HoldsTheBest(FillContrast(pool, selected, q, cfg), cfg.quotas.contrast, pool,
                         MayBeContrast(selected, q, cfg), Further(selected))
  {
    var p := ForContrast(selected, q, cfg);
    ContrastIsFurthest(selected);
    SortedInOrder(ContrastOrder(MeanDense(selected)), Further(selected), Filter(p, pool));
    forall s ensures p(s) <==> MayBeContrast(selected, q, cfg)(s) {
      UnusedIsFree(s, selected, q, cfg);
    }
    CutHoldsTheBest(ContrastGroup, cfg.quotas.contrast, cfg.quotas.contrast, RankContrast(pool, selected, q, cfg),
                    pool, MayBeContrast(selected, q, cfg), Further(selected));
  }

  /**
   * The disposition group holds the best canon dispositions; the pattern group the best seeds left;
   * the episode and memory group the best lived material left, and seeds only behind it; the
   * contrast group what is left that conflicts with no other slot, furthest from their mean first.
   */
  lemma FillHoldsTheBest(pool: seq<Scored>, q: Query, cfg: Config)
    ensures var gs := Fill(pool, q, cfg).groups;
            && |gs| == 4
            && HoldsTheBest(gs[0], cfg.quotas.disposition, pool, MayBeDisposition(), ByScore())
            && (var taken := gs[0].members;
                HoldsTheBest(gs[1], cfg.quotas.pattern, pool, MayBePattern(taken, q, cfg), ByFit(q, cfg)))
            && (var taken := gs[0].members + gs[1].members;
                HoldsTheBest(gs[2], cfg.quotas.episodeMemoryMax, pool, MayBeEpisode(taken, q, cfg), LivedFirst(q, cfg)))
            && (var taken := gs[0].members + gs[1].members + gs[2].members;
                HoldsTheBest(gs[3], cfg.quotas.contrast, pool, MayBeContrast(taken, q, cfg), Further(taken)))
  {
    var gs := Fill(pool, q, cfg).groups;
    DispositionBest(pool, cfg);
    PatternBest(pool, gs[0].members, q, cfg);
    EpisodesBest(pool, gs[0].members + gs[1].members, q, cfg);
    ContrastBest(pool, gs[0].members + gs[1].members + gs[2].members, q, cfg);
  }

  /** The packet is scarce exactly when a group has fewer members than its floor. */
  lemma FillIsScarceIff(pool: seq<Scored>, q: Query, cfg: Config)
    ensures var p := Fill(pool, q, cfg);
            p.scarcity <==>
            || |p.groups[0].members| < cfg.quotas.disposition
            || |p.groups[1].members| < cfg.quotas.pattern
            || |p.groups[2].members| < cfg.quotas.episodeMemoryMin
            || |p.groups[3].members| < cfg.quotas.contrast
  {
    ScarceOfFour(FillGroups(pool, q, cfg));
    FloorsAreQuotas(pool, q, cfg);
  }

  lemma ScarceOfFour(gs: seq<GroupV>)
    requires |gs| == 4
    ensures Filling(gs).scarcity <==> BelowFloor(gs[0]) || BelowFloor(gs[1]) || BelowFloor(gs[2]) || BelowFloor(gs[3])
  {
    assert gs[0] in gs && gs[1] in gs && gs[2] in gs && gs[3] in gs;
    assert forall g | g in gs :: g == gs[0] || g == gs[1] || g == gs[2] || g == gs[3];
  }

  lemma FloorsAreQuotas(pool: seq<Scored>, q: Query, cfg: Config)
    ensures var gs := FillGroups(pool, q, cfg);
            && gs[0].min == cfg.quotas.disposition && gs[1].min == cfg.quotas.pattern
            && gs[2].min == cfg.quotas.episodeMemoryMin && gs[3].min == cfg.quotas.contrast
  {
  }

  // ---------------------------------------------------------------------------
  // The distance
  // ---------------------------------------------------------------------------

  function Gap(c: Candidate, mean: seq<real>, d: nat): (g: real)
    requires d < |mean|
    ensures g >= 0.0
  {
    if Dense(c, d) >= mean[d] then Dense(c, d) - mean[d] else mean[d] - Dense(c, d)
  }

  lemma Positive(x: real, y: real)
    requires x > 0.0 && y > 0.0
    ensures x * y > 0.0
  {
  }

  lemma SquareOrder(a: real, b: real)
    requires 0.0 <= a <= b
    ensures a * a <= b * b && (a * a == b * b <==> a == b)
  {
    if a < b {
      Positive(b - a, b + a);
      assert b * b - a * a == (b - a) * (b + a);
    }
  }

  lemma OneDimensionMore(sa: real, sb: real, a: real, b: real)
    requires sa <= sb && 0.0 <= a <= b
    ensures sa + a * a <= sb + b * b && (sa + a * a < sb + b * b <==> sa < sb || a < b)
  {
    SquareOrder(a, b);
  }

  lemma SquaresNext(c: Candidate, mean: seq<real>, n: nat)
    requires n < |mean|
    ensures SquaresTo(c, mean, n + 1) == SquaresTo(c, mean, n) + Gap(c, mean, n) * Gap(c, mean, n)
  {
    var d := Dense(c, n) - mean[n];
    assert d * d == Gap(c, mean, n) * Gap(c, mean, n);
  }

  ghost predicate FurtherSomewhere(a: Candidate, b: Candidate, mean: seq<real>, n: nat)
    requires n <= |mean|
  {
    exists d: nat :: d < n && Gap(a, mean, d) < Gap(b, mean, d)
  }

  lemma FurtherNext(a: Candidate, b: Candidate, mean: seq<real>, n: nat)
    requires n < |mean|
    ensures FurtherSomewhere(a, b, mean, n + 1) <==>
            FurtherSomewhere(a, b, mean, n) || Gap(a, mean, n) < Gap(b, mean, n)
  {
  }

  lemma DimensionDecides(a: Candidate, b: Candidate, mean: seq<real>, n: nat, sa: real, sb: real)
    requires n < |mean| && Gap(a, mean, n) <= Gap(b, mean, n)
    requires sa == SquaresTo(a, mean, n) && sb == SquaresTo(b, mean, n) && sa <= sb
    ensures SquaresTo(a, mean, n + 1) <= SquaresTo(b, mean, n + 1)
    ensures SquaresTo(a, mean, n + 1) < SquaresTo(b, mean, n + 1) <==> sa < sb || Gap(a, mean, n) < Gap(b, mean, n)
  {
    SquaresNext(a, mean, n);
    SquaresNext(b, mean, n);
    OneDimensionMore(sa, sb, Gap(a, mean, n), Gap(b, mean, n));
  }

  lemma {:induction false} GapsDecide(a: Candidate, b: Candidate, mean: seq<real>, n: nat)
    requires n <= |mean| && forall d: nat | d < n :: Gap(a, mean, d) <= Gap(b, mean, d)
    ensures SquaresTo(a, mean, n) <= SquaresTo(b, mean, n)
    ensures FurtherSomewhere(a, b, mean, n) <==> SquaresTo(a, mean, n) < SquaresTo(b, mean, n)
  {
    if n > 0 {
      GapsDecide(a, b, mean, n - 1);
      FurtherNext(a, b, mean, n - 1);
      DimensionDecides(a, b, mean, n - 1, SquaresTo(a, mean, n - 1), SquaresTo(b, mean, n - 1));
    }
  }

  /**
   * A candidate that is at least as far from the mean in every dimension is at least as dissimilar,
   * and more so exactly when it is further in one.
   */
  lemma DissimilarityIsDistance(a: Candidate, b: Candidate, mean: seq<real>)
    requires forall d: nat | d < |mean| :: Gap(a, mean, d) <= Gap(b, mean, d)
    ensures Dissimilarity(a, mean) <= Dissimilarity(b, mean)
    ensures Dissimilarity(a, mean) < Dissimilarity(b, mean) <==> FurtherSomewhere(a, b, mean, |mean|)
  {
    GapsDecide(a, b, mean, |mean|);
  }
}
