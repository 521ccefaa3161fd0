/**
 * Where two promises of the assembly stop, on packets the fill itself produces: a forced run of
 * swaps that brings an exile back, and a due drop that breaks a layer the verdict found in order.
 */
module ReachedFailures {
  import opened Orders
  import opened Candidates
  import opened Quota
  import opened PacketLaws
  import opened Coherence
  import opened SwapLoop
  import opened Budget
  import opened ShippedCoherence

  // ---------------------------------------------------------------------------
  // Candidates only the embedding layer looks at
  // ---------------------------------------------------------------------------

  /** No tag, no dimension, no signature: nothing the first four layers could object to. */
  predicate Plain(s: Scored) {
    s.c.tags == [] && s.c.dimension.None? && s.c.sig == map[]
  }

  ghost predicate AllPlain(groups: seq<GroupV>, ctx: Context) {
    ctx.cfg.coherence.spreadMax >= 0.0 && forall m | m in MembersOf(groups) :: Plain(m)
  }

  lemma {:induction false} NoTags(ms: seq<Scored>, cfg: Config)
    requires forall m | m in ms :: Plain(m)
    ensures AllTags(ms, cfg) == []
    decreases |ms|
  {
    if ms != [] {
      NoTags(ms[..|ms| - 1], cfg);
      assert Plain(ms[|ms| - 1]);
    }
  }

  lemma ScopeIsPlain(layer: Layer, groups: seq<GroupV>, ctx: Context)
    requires AllPlain(groups, ctx)
    ensures forall m | m in InScope(layer, groups) :: Plain(m)
  {
    MembersFiltered(CountsTags, groups);
    MembersFiltered(NotContrast, groups);
    forall m | m in InScope(layer, groups) ensures Plain(m) {
      Within(InScope(layer, groups), MembersOf(groups), m);
    }
  }

  lemma PlainMembers(ms: seq<Scored>, ctx: Context)
    requires forall m | m in ms :: Plain(m)
    ensures !SomePairClashes(ms, ctx.cfg) && !SomeDimensionOverCap(ms, ctx) && !TooManyTags(ms, ctx.cfg)
  {
    NoTags(ms, ctx.cfg);
    forall i: nat, j: nat | i < j < |ms| ensures !ClashAt(ms, ctx.cfg, i, j) {
      PlainIsCompatible(ms[i], ctx.q, ctx.cfg);
    }
    forall dim ensures !OverCap(ms, ctx, dim) {
      FilterNone(Carries(dim), ms);
    }
  }

  lemma PlainIsNarrow(ms: seq<Scored>, cfg: Config)
    requires cfg.coherence.spreadMax >= 0.0 && forall m | m in ms :: Plain(m)
    ensures !SomeDimensionWide(ms, cfg)
  {
    forall dim: nat ensures !Wide(ms, cfg, dim) {}
  }

  lemma PlainLayer(layer: Layer, groups: seq<GroupV>, ctx: Context)
    requires AllPlain(groups, ctx) && layer != EmbeddingSanity
    ensures !Broken(layer, groups, ctx)
  {
    ScopeIsPlain(layer, groups, ctx);
    PlainMembers(InScope(layer, groups), ctx);
    PlainIsNarrow(InScope(layer, groups), ctx.cfg);
  }

  lemma PlainClear(groups: seq<GroupV>, ctx: Context)
    requires AllPlain(groups, ctx)
    ensures Clear(groups, ctx, 4)
  {
    PlainLayer(ForbiddenPairs, groups, ctx);
    PlainLayer(DimensionCaps, groups, ctx);
    PlainLayer(RegisterTags, groups, ctx);
    PlainLayer(SignatureSpread, groups, ctx);
    assert Clear(groups, ctx, 0) && Clear(groups, ctx, 1) && Clear(groups, ctx, 2) && Clear(groups, ctx, 3);
  }

  lemma PlainViolation(groups: seq<GroupV>, ctx: Context, s: Scored)
    requires AllPlain(groups, ctx) && Lowest(s, InsaneSlots(MembersOf(groups), ctx))
    ensures Violation(groups, ctx, s)
  {
    PlainClear(groups, ctx);
    assert NamedBy(4, groups, ctx, s);
  }

  // ---------------------------------------------------------------------------
  // An exile that returns
  // ---------------------------------------------------------------------------

  /** Two patterns and an episode without vectors, the episode scored highest. */
  predicate Unembedded(b: Scored, a: Scored, r: Scored) {
    && Plain(b) && Plain(a) && Plain(r) && b.c.vec.None? && a.c.vec.None? && r.c.vec.None?
    && b.c.tier == Episode && a.c.tier == r.c.tier == PatternTier
    && b.score > a.score > r.score
    && b.c.id != a.c.id && a.c.id != r.c.id && b.c.id != r.c.id
  }

  /** One pattern slot, one contrast slot, room for nothing else, and rounds enough. */
  predicate OneEach(cfg: Config) {
    && cfg.quotas.pattern == 1 && cfg.quotas.contrast == 1
    && cfg.quotas.episodeMemoryMin == cfg.quotas.episodeMemoryMax == 0
    && cfg.dimensionCaps == map[] && cfg.coherence.spreadMax >= 0.0 && cfg.coherence.maxSwapRounds >= 3
  }

  /** The groups on the way: what fills the pattern and the contrast slot, and what has left them. */
  function Way(b: Scored, r: Scored, cfg: Config, pattern: seq<Scored>, patternOut: seq<Scored>,
               contrast: seq<Scored>, contrastOut: seq<Scored>): seq<GroupV>
  {
    [GroupV(DispositionGroup, cfg.quotas.disposition, [], [], []),
     GroupV(PatternGroup, 1, pattern, [r], patternOut),
     GroupV(EpisodeMemoryGroup, cfg.quotas.episodeMemoryMin, [], [b, r], []),
     GroupV(ContrastGroup, 1, contrast, [r], contrastOut)]
  }

  lemma SortTwo<T>(le: (T, T) -> bool, x: T, y: T)
    requires le(x, y)
    ensures SortBy(le, [x, y]) == [x, y]
  {
    assert [x, y][1..] == [y] && [y][1..] == [];
    assert SortBy(le, [y]) == [y];
  }

  lemma SortOne<T>(le: (T, T) -> bool, x: T)
    ensures SortBy(le, [x]) == [x]
  {
    assert [x][1..] == [] && SortBy(le, []) == [];
  }

  lemma RemoveOnly(s: Scored)
    ensures RemoveSlot([s], s) == []
  {
    RemovedParts([s], s);
  }

  lemma FilterThree<T(!new)>(p: T -> bool, x: T, y: T, z: T)
    ensures Filter(p, [x, y, z]) == (if p(x) then [x] else []) + (if p(y) then [y] else []) + (if p(z) then [z] else [])
  {
    assert [x, y, z][1..] == [y, z] && [y, z][1..] == [z] && [z][1..] == [];
    assert Filter(p, [z]) == if p(z) then [z] else [];
    assert Filter(p, [y, z]) == (if p(y) then [y] else []) + (if p(z) then [z] else []);
  }

  lemma {:induction false} SilentSquares(x: Candidate, y: Candidate, mean: seq<real>, n: nat)
    requires x.sig == y.sig == map[] && n <= |mean|
    ensures SquaresTo(x, mean, n) == SquaresTo(y, mean, n)
  {
    if n > 0 { SilentSquares(x, y, mean, n - 1); }
  }

  lemma PlainIsCompatible(s: Scored, q: Query, cfg: Config)
    requires Plain(s)
    ensures RegisterTagsOf(s.c, cfg) == []
    ensures ModeCompatible(s.c, q.register, cfg)
  {
  }

  /** Patterns are filled best first whether or not the register is strict. */
  lemma PlainOrder(x: Scored, y: Scored, q: Query, cfg: Config)
    requires Plain(x) && Plain(y) && x.score > y.score
    ensures FillOrder(q, cfg)(x, y) && ModeOk(x, q, cfg) && ModeOk(y, q, cfg)
  {
    PlainIsCompatible(x, q, cfg);
    PlainIsCompatible(y, q, cfg);
  }

  lemma UnembeddedPatterns(b: Scored, a: Scored, r: Scored, q: Query, cfg: Config)
    requires Unembedded(b, a, r) && OneEach(cfg)
    ensures FillPattern([b, a, r], [], q, cfg) == GroupV(PatternGroup, 1, [a], [r], [])
  {
    var p := ForPattern(IdsOf([]), q, cfg);
    PlainOrder(a, r, q, cfg);
    assert !p(b) && p(a) && p(r);
    FilterThree(p, b, a, r);
    assert Filter(p, [b, a, r]) == [a, r];
    SortTwo(FillOrder(q, cfg), a, r);
  }

  lemma UnembeddedDisposition(b: Scored, a: Scored, r: Scored, cfg: Config)
    requires Unembedded(b, a, r)
    ensures FillDisposition([b, a, r], cfg) == GroupV(DispositionGroup, cfg.quotas.disposition, [], [], [])
  {
    FilterThree(IsCanonDisposition, b, a, r);
    assert Filter(IsCanonDisposition, [b, a, r]) == [];
  }

  lemma UnembeddedEpisodes(b: Scored, a: Scored, r: Scored, q: Query, cfg: Config)
    requires Unembedded(b, a, r) && OneEach(cfg)
    ensures FillEpisodes([b, a, r], [a], q, cfg) ==
            GroupV(EpisodeMemoryGroup, cfg.quotas.episodeMemoryMin, [], [b, r], [])
  {
    var used := IdsOf([a]);
    assert LiveMemory([b, a, r], used, q, cfg) == [b] by { OnlyLive(b, a, r, used, q, cfg); }
    assert Backfill([b, a, r], used, q, cfg) == [r] by { OnlyBackfill(b, a, r, q, cfg); }
    assert [b] + [r] == [b, r];
  }

  lemma OnlyLive(b: Scored, a: Scored, r: Scored, used: set<string>, q: Query, cfg: Config)
    requires Unembedded(b, a, r) && used == IdsOf([a])
    ensures LiveMemory([b, a, r], used, q, cfg) == [b]
  {
    var p := ForLiveMemory(used, q, cfg);
    PlainOrder(b, r, q, cfg);
    assert p(b) && !p(a) && !p(r);
    FilterThree(p, b, a, r);
    assert Filter(p, [b, a, r]) == [b];
    SortOne(FillOrder(q, cfg), b);
  }

  lemma OnlyBackfill(b: Scored, a: Scored, r: Scored, q: Query, cfg: Config)
    requires Unembedded(b, a, r)
    ensures Backfill([b, a, r], IdsOf([a]), q, cfg) == [r]
  {
    var p := ForPattern(IdsOf([a]), q, cfg);
    PlainOrder(a, r, q, cfg);
    assert a in [a];
    assert !p(b) && !p(a) && p(r);
    FilterThree(p, b, a, r);
    assert Filter(p, [b, a, r]) == [r];
    SortOne(FillOrder(q, cfg), r);
  }

  lemma PlainForContrast(s: Scored, a: Scored, q: Query, cfg: Config)
    requires Plain(s) && Plain(a) && cfg.dimensionCaps == map[]
    ensures ForContrast([a], q, cfg)(s) <==> s.c.id != a.c.id
  {
    PlainIsCompatible(s, q, cfg);
    assert a in [a];
    assert s.c.id in IdsOf([a]) <==> s.c.id == a.c.id;
  }

  lemma UnembeddedContrast(b: Scored, a: Scored, r: Scored, q: Query, cfg: Config)
    requires Unembedded(b, a, r) && OneEach(cfg)
    ensures FillContrast([b, a, r], [a], q, cfg) == GroupV(ContrastGroup, 1, [b], [r], [])
  {
    var p, mean := ForContrast([a], q, cfg), MeanDense([a]);
    PlainForContrast(b, a, q, cfg);
    PlainForContrast(a, a, q, cfg);
    PlainForContrast(r, a, q, cfg);
    FilterThree(p, b, a, r);
    assert Filter(p, [b, a, r]) == [b, r];
    assert Dissimilarity(b.c, mean) == Dissimilarity(r.c, mean) by { SilentSquares(b.c, r.c, mean, |mean|); }
    assert BestFirst(b, r);
    assert ContrastOrder(mean)(b, r);
    SortTwo(ContrastOrder(mean), b, r);
  }

  lemma Units<T>(s: seq<T>)
    ensures [] + s == s && s + [] == s
  {
  }

  lemma GroupsOfFill(pool: seq<Scored>, q: Query, cfg: Config, g0: GroupV, g1: GroupV, g2: GroupV, g3: GroupV,
                     m1: seq<Scored>, m2: seq<Scored>)
    requires g0 == FillDisposition(pool, cfg) && g1 == FillPattern(pool, g0.members, q, cfg)
    requires m1 == g0.members + g1.members && g2 == FillEpisodes(pool, m1, q, cfg)
    requires m2 == m1 + g2.members && g3 == FillContrast(pool, m2, q, cfg)
    ensures FillGroups(pool, q, cfg) == [g0, g1, g2, g3]
  {
  }

  lemma UnembeddedFill(b: Scored, a: Scored, r: Scored, q: Query, cfg: Config)
    requires Unembedded(b, a, r) && OneEach(cfg)
    ensures FillGroups([b, a, r], q, cfg) == Way(b, r, cfg, [a], [], [b], [])
  {
    UnembeddedDisposition(b, a, r, cfg);
    UnembeddedPatterns(b, a, r, q, cfg);
    UnembeddedEpisodes(b, a, r, q, cfg);
    UnembeddedContrast(b, a, r, q, cfg);
    var g0 := GroupV(DispositionGroup, cfg.quotas.disposition, [], [], []);
    var g1 := GroupV(PatternGroup, 1, [a], [r], []);
    var g2 := GroupV(EpisodeMemoryGroup, cfg.quotas.episodeMemoryMin, [], [b, r], []);
    var g3 := GroupV(ContrastGroup, 1, [b], [r], []);
    Units([a]);
    GroupsOfFill([b, a, r], q, cfg, g0, g1, g2, g3, [a], [a]);
  }

  /** Without a vector every slot is an offender, so the lowest leaves. */
  lemma UnembeddedForced(b: Scored, r: Scored, ctx: Context, scarce: bool, pattern: seq<Scored>, patternOut: seq<Scored>,
                         i: nat, s: Scored)
    requires OneEach(ctx.cfg) && |pattern| <= 1
    requires forall m | m in pattern + [b] :: Plain(m) && m.c.vec.None? && (m.c.tier == PatternTier || m.c.tier == Episode)
    requires (i == 1 && s in pattern) || (i == 3 && s == b)
    requires forall m | m in pattern + [b] :: LowestFirst(s, m)
    ensures Forced(Packet(Way(b, r, ctx.cfg, pattern, patternOut, [b], []), [], [], scarce), ctx, Swap(i, s))
  {
    var groups := Way(b, r, ctx.cfg, pattern, patternOut, [b], []);
    FourMembers(groups);
    assert MembersOf(groups) == pattern + [b];
    var ms := MembersOf(groups);
    FilterEvery(Insane(Centroid(Filter(HasVec, ms)), ctx), ms);
    assert s in pattern + [b];
    PlainViolation(groups, ctx, s);
  }

  lemma WayUpdated(b: Scored, r: Scored, cfg: Config, pattern: seq<Scored>, patternOut: seq<Scored>,
                   contrast: seq<Scored>, contrastOut: seq<Scored>, members: seq<Scored>, out: seq<Scored>)
    ensures Way(b, r, cfg, pattern, patternOut, contrast, contrastOut)[1 := GroupV(PatternGroup, 1, members, [r], out)] ==
            Way(b, r, cfg, members, out, contrast, contrastOut)
    ensures Way(b, r, cfg, pattern, patternOut, contrast, contrastOut)[3 := GroupV(ContrastGroup, 1, members, [r], out)] ==
            Way(b, r, cfg, pattern, patternOut, members, out)
  {
  }

  lemma PatternLeaves(b: Scored, a: Scored, r: Scored, cfg: Config, scarce: bool)
    requires Unembedded(b, a, r)
    ensures Swapped(Packet(Way(b, r, cfg, [a], [], [b], []), [], [], scarce), 1, a) ==
            Packet(Way(b, r, cfg, [r], [a], [b], []), [], [], scarce)
  {
    var p := Packet(Way(b, r, cfg, [a], [], [b], []), [], [], scarce);
    var v := Packet(Way(b, r, cfg, [], [a], [b], []), [], [], scarce);
    RemoveOnly(a);
    WayUpdated(b, r, cfg, [a], [], [b], [], [], [a]);
    assert [] + [a] == [a] && [] + [r] == [r];
    assert Vacated(p, 1, a) == v;
    FourMembers(v.groups);
    assert Free(r, [a], v);
    WayUpdated(b, r, cfg, [], [a], [b], [], [r], [a]);
  }

  lemma RunnerLeaves(b: Scored, a: Scored, r: Scored, cfg: Config, scarce: bool)
    requires Unembedded(b, a, r)
    ensures Swapped(Packet(Way(b, r, cfg, [r], [a], [b], []), [], [], scarce), 1, r) ==
            Packet(Way(b, r, cfg, [], [a, r], [b], []), [], [], scarce)
  {
    var p := Packet(Way(b, r, cfg, [r], [a], [b], []), [], [], scarce);
    var v := Packet(Way(b, r, cfg, [], [a, r], [b], []), [], [], scarce);
    RemoveOnly(r);
    WayUpdated(b, r, cfg, [r], [a], [b], [], [], [a, r]);
    assert [a] + [r] == [a, r];
    assert Vacated(p, 1, r) == v;
    assert r in [a, r] && !Free(r, [a, r], v);
  }

  lemma RunnerReturns(b: Scored, a: Scored, r: Scored, cfg: Config, scarce: bool)
    requires Unembedded(b, a, r)
    ensures Swapped(Packet(Way(b, r, cfg, [], [a, r], [b], []), [], [], scarce), 3, b) ==
            Packet(Way(b, r, cfg, [], [a, r], [r], [b]), [], [], scarce)
  {
    var p := Packet(Way(b, r, cfg, [], [a, r], [b], []), [], [], scarce);
    var v := Packet(Way(b, r, cfg, [], [a, r], [], [b]), [], [], scarce);
    RemoveOnly(b);
    WayUpdated(b, r, cfg, [], [a, r], [b], [], [], [b]);
    assert [] + [b] == [b] && [] + [r] == [r];
    assert Vacated(p, 3, b) == v;
    FourMembers(v.groups);
    assert Free(r, [b], v);
    WayUpdated(b, r, cfg, [], [a, r], [], [b], [r], [b]);
  }

  lemma FirstSwap(b: Scored, a: Scored, r: Scored, ctx: Context, scarce: bool)
    requires Unembedded(b, a, r) && OneEach(ctx.cfg)
    ensures var p := Packet(Way(b, r, ctx.cfg, [a], [], [b], []), [], [], scarce);
            Forced(p, ctx, Swap(1, a)) && Apply(p, Swap(1, a)) == Packet(Way(b, r, ctx.cfg, [r], [a], [b], []), [], [], scarce)
  {
    UnembeddedForced(b, r, ctx, scarce, [a], [], 1, a);
    PatternLeaves(b, a, r, ctx.cfg, scarce);
  }

  lemma SecondSwap(b: Scored, a: Scored, r: Scored, ctx: Context, scarce: bool)
    requires Unembedded(b, a, r) && OneEach(ctx.cfg)
    ensures var p := Packet(Way(b, r, ctx.cfg, [r], [a], [b], []), [], [], scarce);
            Forced(p, ctx, Swap(1, r)) && Apply(p, Swap(1, r)) == Packet(Way(b, r, ctx.cfg, [], [a, r], [b], []), [], [], scarce)
  {
    UnembeddedForced(b, r, ctx, scarce, [r], [a], 1, r);
    RunnerLeaves(b, a, r, ctx.cfg, scarce);
  }

  lemma ThirdSwap(b: Scored, a: Scored, r: Scored, ctx: Context, scarce: bool)
    requires Unembedded(b, a, r) && OneEach(ctx.cfg)
    ensures var p := Packet(Way(b, r, ctx.cfg, [], [a, r], [b], []), [], [], scarce);
            Forced(p, ctx, Swap(3, b)) && Apply(p, Swap(3, b)) == Packet(Way(b, r, ctx.cfg, [], [a, r], [r], [b]), [], [], scarce)
  {
    UnembeddedForced(b, r, ctx, scarce, [], [a, r], 3, b);
    RunnerReturns(b, a, r, ctx.cfg, scarce);
  }

  lemma ChainOfThree<T>(next: (seq<T>, T) -> bool, w: T, x: T, y: T)
    requires next([], w) && next([w], x) && next([w, x], y)
    ensures Chain(next, [w, x, y])
  {
    assert [w, x, y][..2] == [w, x] && [w, x][..1] == [w] && [w][..0] == [];
    assert Chain(next, []) && Chain(next, [w]) && Chain(next, [w, x]);
  }

  lemma ThreeSwaps(p: Packet, w: Swap, x: Swap, y: Swap)
    ensures AfterSwaps(p, []) == p && AfterSwaps(p, [w]) == Apply(p, w)
    ensures AfterSwaps(p, [w, x]) == Apply(Apply(p, w), x)
    ensures AfterSwaps(p, [w, x, y]) == Apply(Apply(Apply(p, w), x), y)
  {
    assert [w, x, y][..2] == [w, x] && [w, x][..1] == [w] && [w][..0] == [];
  }

  lemma RunOfThree(p0: Packet, p1: Packet, p2: Packet, p3: Packet, ctx: Context, w: Swap, x: Swap, y: Swap)
    requires Forced(p0, ctx, w) && Apply(p0, w) == p1
    requires Forced(p1, ctx, x) && Apply(p1, x) == p2
    requires Forced(p2, ctx, y) && Apply(p2, y) == p3
    ensures ForcedRun(p0, ctx, [w, x, y]) && AfterSwaps(p0, [w, x, y]) == p3
  {
    ThreeSwaps(p0, w, x, y);
    ChainOfThree(ForcedNext(p0, ctx), w, x, y);
  }

  lemma AllTheWay(b: Scored, a: Scored, r: Scored, ctx: Context, p: Packet)
    requires Unembedded(b, a, r) && OneEach(ctx.cfg)
    requires p.groups == Way(b, r, ctx.cfg, [a], [], [b], []) && p.procedural == p.proceduralOut == []
    ensures var run := [Swap(1, a), Swap(1, r), Swap(3, b)];
            && ForcedRun(p, ctx, run)
            && AfterSwaps(p, run).groups == Way(b, r, ctx.cfg, [], [a, r], [r], [b])
  {
    var p1 := Packet(Way(b, r, ctx.cfg, [r], [a], [b], []), [], [], p.scarcity);
    var p2 := Packet(Way(b, r, ctx.cfg, [], [a, r], [b], []), [], [], p.scarcity);
    var p3 := Packet(Way(b, r, ctx.cfg, [], [a, r], [r], [b]), [], [], p.scarcity);
    FirstSwap(b, a, r, ctx, p.scarcity);
    SecondSwap(b, a, r, ctx, p.scarcity);
    ThirdSwap(b, a, r, ctx, p.scarcity);
    RunOfThree(p, p1, p2, p3, ctx, Swap(1, a), Swap(1, r), Swap(3, b));
  }

  /** The slot left the pattern group and fills the contrast group. */
  ghost predicate CameBack(p: Packet, ctx: Context, run: seq<Swap>, s: Scored) {
    var end := AfterSwaps(p, run);
    ForcedRun(p, ctx, run) && |end.groups| == 4 && s in end.groups[1].out && s in end.groups[3].members
  }

  lemma RunnerCameBack(b: Scored, a: Scored, r: Scored, ctx: Context, p: Packet)
    requires Unembedded(b, a, r) && OneEach(ctx.cfg)
    requires p.groups == Way(b, r, ctx.cfg, [a], [], [b], []) && p.procedural == p.proceduralOut == []
    ensures CameBack(p, ctx, [Swap(1, a), Swap(1, r), Swap(3, b)], r)
  {
    AllTheWay(b, a, r, ctx, p);
    assert r in [a, r] && r in [r];
  }

  lemma UnembeddedPacket(b: Scored, a: Scored, r: Scored, q: Query, cfg: Config)
    requires Unembedded(b, a, r) && OneEach(cfg)
    ensures var p := Fill([b, a, r], q, cfg);
            p.groups == Way(b, r, cfg, [a], [], [b], []) && p.procedural == p.proceduralOut == []
  {
    UnembeddedFill(b, a, r, q, cfg);
  }

  /**
   * A filled packet and the three swaps the embedding layer forces on it: the pattern leaves, the
   * runner-up that took its slot leaves, and comes back through the contrast group.
   */
  lemma ExileReturns(b: Scored, a: Scored, r: Scored, ctx: Context)
    requires Unembedded(b, a, r) && OneEach(ctx.cfg)
    ensures CameBack(Fill([b, a, r], ctx.q, ctx.cfg), ctx, [Swap(1, a), Swap(1, r), Swap(3, b)], r)
  {
    UnembeddedPacket(b, a, r, ctx.q, ctx.cfg);
    RunnerCameBack(b, a, r, ctx, Fill([b, a, r], ctx.q, ctx.cfg));
  }

  // ---------------------------------------------------------------------------
  // A drop that breaks the verdict
  // ---------------------------------------------------------------------------

  /** The cosine of two vectors of dimension one. */
  function Cosine1(a: seq<real>, b: seq<real>): real {
    if |a| != 1 || |b| != 1 || a[0] * b[0] == 0.0 then 0.0 else if a[0] * b[0] > 0.0 then 1.0 else -1.0
  }

  ghost predicate OneDimensional(ctx: Context) {
    && ctx.q.vec == [-1.0] && ctx.cosine == Cosine1
    && ctx.cfg.coherence.minQueryCos == ctx.cfg.coherence.minCentroidCos == 0.5
  }

  lemma InsaneInOneDimension(s: Scored, v: real, c: real, ctx: Context)
    requires OneDimensional(ctx) && s.c.tier == Episode && s.c.vec == Some([v]) && v != 0.0 && c != 0.0
    ensures Insane([c], ctx)(s) <==> v * -1.0 < 0.0 && v * c < 0.0
  {
    assert Cosine1([v], [-1.0]) == if v * -1.0 > 0.0 then 1.0 else -1.0;
    assert Cosine1([v], [c]) == if v * c > 0.0 then 1.0 else -1.0;
  }

  /** Three episodes, best first; the last speaks for the first before the embedding layer. */
  predicate Leaning(x: Scored, z: Scored, y: Scored) {
    && Plain(x) && Plain(z) && Plain(y) && x.c.tier == z.c.tier == y.c.tier == Episode
    && x.c.vec == Some([1.0]) && z.c.vec == Some([-2.0]) && y.c.vec == Some([3.0])
    && x.score > z.score > y.score
  }

  function EpisodesOnly(cfg: Config, members: seq<Scored>, out: seq<Scored>): seq<GroupV> {
    [GroupV(DispositionGroup, cfg.quotas.disposition, [], [], []),
     GroupV(PatternGroup, cfg.quotas.pattern, [], [], []),
     GroupV(EpisodeMemoryGroup, cfg.quotas.episodeMemoryMin, members, [], out),
     GroupV(ContrastGroup, cfg.quotas.contrast, [], [], [])]
  }

  lemma SortThree<T>(le: (T, T) -> bool, x: T, y: T, z: T)
    requires le(x, y) && le(y, z)
    ensures SortBy(le, [x, y, z]) == [x, y, z]
  {
    assert [x, y, z][1..] == [y, z];
    SortTwo(le, y, z);
  }

  lemma NoneLeft(p: Scored -> bool, order: (Scored, Scored) -> bool, pool: seq<Scored>, quota: nat)
    requires forall s | s in pool :: !p(s)
    ensures Take(SortBy(order, Filter(p, pool)), quota) == Drop(SortBy(order, Filter(p, pool)), quota) == []
  {
    FilterNone(p, pool);
  }

  lemma LeaningLive(x: Scored, z: Scored, y: Scored, q: Query, cfg: Config)
    requires Leaning(x, z, y)
    ensures LiveMemory([x, z, y], IdsOf([]), q, cfg) == [x, z, y]
  {
    var p := ForLiveMemory(IdsOf([]), q, cfg);
    PlainOrder(x, z, q, cfg);
    PlainOrder(z, y, q, cfg);
    assert p(x) && p(z) && p(y);
    FilterEvery(p, [x, z, y]);
    SortThree(FillOrder(q, cfg), x, z, y);
  }

  lemma LeaningBackfill(x: Scored, z: Scored, y: Scored, used: set<string>, q: Query, cfg: Config)
    requires Leaning(x, z, y)
    ensures Filter(ForPattern(used, q, cfg), [x, z, y]) == [] && Backfill([x, z, y], used, q, cfg) == []
  {
    var p := ForPattern(used, q, cfg);
    assert !p(x) && !p(z) && !p(y);
    FilterNone(p, [x, z, y]);
  }

  lemma TakeAll<T>(s: seq<T>, n: nat)
    requires |s| <= n
    ensures Take(s, n) == s && Drop(s, n) == []
  {
  }

  lemma EpisodesFrom(pool: seq<Scored>, selected: seq<Scored>, q: Query, cfg: Config, ranked: seq<Scored>)
    requires ranked == LiveMemory(pool, IdsOf(selected), q, cfg) + Backfill(pool, IdsOf(selected), q, cfg)
    requires |ranked| <= cfg.quotas.episodeMemoryMax
    ensures FillEpisodes(pool, selected, q, cfg) ==
            GroupV(EpisodeMemoryGroup, cfg.quotas.episodeMemoryMin, ranked, [], [])
  {
    TakeAll(ranked, cfg.quotas.episodeMemoryMax);
  }

  lemma LeaningEpisodes(x: Scored, z: Scored, y: Scored, q: Query, cfg: Config)
    requires Leaning(x, z, y) && cfg.quotas.episodeMemoryMax >= 3
    ensures FillEpisodes([x, z, y], [], q, cfg) ==
            GroupV(EpisodeMemoryGroup, cfg.quotas.episodeMemoryMin, [x, z, y], [], [])
  {
    var pool := [x, z, y];
    assert pool == LiveMemory(pool, IdsOf([]), q, cfg) + Backfill(pool, IdsOf([]), q, cfg) by {
      LeaningLive(x, z, y, q, cfg);
      LeaningBackfill(x, z, y, IdsOf([]), q, cfg);
    }
    EpisodesFrom(pool, [], q, cfg, pool);
  }

  lemma LeaningDisposition(x: Scored, z: Scored, y: Scored, cfg: Config)
    requires Leaning(x, z, y)
    ensures FillDisposition([x, z, y], cfg) == GroupV(DispositionGroup, cfg.quotas.disposition, [], [], [])
  {
    FilterNone(IsCanonDisposition, [x, z, y]);
  }

  lemma LeaningPattern(x: Scored, z: Scored, y: Scored, q: Query, cfg: Config)
    requires Leaning(x, z, y)
    ensures FillPattern([x, z, y], [], q, cfg) == GroupV(PatternGroup, cfg.quotas.pattern, [], [], [])
  {
    assert Filter(ForPattern(IdsOf([]), q, cfg), [x, z, y]) == [] by {
      LeaningBackfill(x, z, y, IdsOf([]), q, cfg);
    }
  }

  lemma NoContrastLeft(pool: seq<Scored>, q: Query, cfg: Config)
    ensures FillContrast(pool, pool, q, cfg) == EpisodesOnly(cfg, [], [])[3]
  {
    var p := ForContrast(pool, q, cfg);
    forall s | s in pool ensures !p(s) {
      assert s.c.id in IdsOf(pool);
    }
    FilterNone(p, pool);
  }

  lemma LeaningFill(x: Scored, z: Scored, y: Scored, q: Query, cfg: Config)
    requires Leaning(x, z, y) && cfg.quotas.episodeMemoryMax >= 3
    ensures FillGroups([x, z, y], q, cfg) == EpisodesOnly(cfg, [x, z, y], [])
  {
    LeaningDisposition(x, z, y, cfg);
    LeaningPattern(x, z, y, q, cfg);
    LeaningEpisodes(x, z, y, q, cfg);
    NoContrastLeft([x, z, y], q, cfg);
    Units([x, z, y]);
    Units<Scored>([]);
    var g := EpisodesOnly(cfg, [x, z, y], []);
    GroupsOfFill([x, z, y], q, cfg, g[0], g[1], g[2], g[3], [], [x, z, y]);
  }

  lemma CentroidOfTwo(x: Scored, z: Scored)
    requires x.c.vec == Some([1.0]) && z.c.vec == Some([-2.0])
    ensures Filter(HasVec, [x, z]) == [x, z] && Centroid([x, z]) == [-0.5]
  {
    assert [x, z][1..] == [z] && [z][1..] == [] && [x, z][..1] == [x] && [x][..0] == [];
    assert SumVecs([x], 0) == 1.0;
    assert SumVecs([x, z], 0) == -1.0;
  }

  lemma CentroidOfThree(x: Scored, z: Scored, y: Scored)
    requires x.c.vec == Some([1.0]) && z.c.vec == Some([-2.0]) && y.c.vec == Some([3.0])
    ensures Filter(HasVec, [x, z, y]) == [x, z, y] && Centroid([x, z, y]) == [2.0 / 3.0]
  {
    FilterThree(HasVec, x, z, y);
    assert [x, z, y][..2] == [x, z] && [x, z][..1] == [x] && [x][..0] == [];
    assert SumVecs([x], 0) == 1.0;
    assert SumVecs([x, z], 0) == -1.0;
    assert SumVecs([x, z, y], 0) == 2.0;
  }

  lemma LeaningIsSane(x: Scored, z: Scored, y: Scored, ctx: Context)
    requires OneDimensional(ctx) && Leaning(x, z, y)
    ensures InsaneSlots([x, z, y], ctx) == []
  {
    CentroidOfThree(x, z, y);
    InsaneInOneDimension(x, 1.0, 2.0 / 3.0, ctx);
    InsaneInOneDimension(z, -2.0, 2.0 / 3.0, ctx);
    InsaneInOneDimension(y, 3.0, 2.0 / 3.0, ctx);
    FilterNone(Insane([2.0 / 3.0], ctx), [x, z, y]);
  }

  lemma LeftAlone(x: Scored, z: Scored, y: Scored, ctx: Context)
    requires OneDimensional(ctx) && Leaning(x, z, y)
    ensures InsaneSlots([x, z], ctx) != []
  {
    CentroidOfTwo(x, z);
    InsaneInOneDimension(x, 1.0, -0.5, ctx);
    assert x in [x, z];
  }

  lemma EpisodeMembers(p: Packet, cfg: Config, members: seq<Scored>, out: seq<Scored>)
    requires p.groups == EpisodesOnly(cfg, members, out)
    ensures MembersOf(p.groups) == members
  {
    FourMembers(p.groups);
    assert [] + [] + members + [] == members;
  }

  lemma LastEpisodeIsDue(x: Scored, z: Scored, y: Scored, p: Packet, cfg: Config)
    requires Leaning(x, z, y) && p.groups == EpisodesOnly(cfg, [x, z, y], [])
    ensures Legal(p, ExemplarDrop(2, y))
  {
    EpisodeMembers(p, cfg, [x, z, y], []);
    assert y in [x, z, y] && p.groups[2].members == [x, z, y];
    assert forall m | m in [x, z, y] :: LowestFirst(y, m);
  }

  lemma LastEpisodeDropped(x: Scored, z: Scored, y: Scored, p: Packet, cfg: Config)
    requires Leaning(x, z, y) && p.groups == EpisodesOnly(cfg, [x, z, y], [])
    ensures ApplyDrop(p, ExemplarDrop(2, y)).groups == EpisodesOnly(cfg, [x, z], [y])
  {
    FilterThree((m: Scored) => m != y, x, z, y);
    assert RemoveSlot([x, z, y], y) == [x, z];
    assert [] + [y] == [y];
    EpisodesUpdated(cfg, [x, z, y], [], [x, z], [y]);
  }

  lemma EpisodesUpdated(cfg: Config, members: seq<Scored>, out: seq<Scored>, left: seq<Scored>, gone: seq<Scored>)
    ensures EpisodesOnly(cfg, members, out)[2 := GroupV(EpisodeMemoryGroup, cfg.quotas.episodeMemoryMin, left, [], gone)] ==
            EpisodesOnly(cfg, left, gone)
  {
  }

  lemma LeaningIsCoherent(x: Scored, z: Scored, y: Scored, p: Packet, ctx: Context)
    requires OneDimensional(ctx) && Leaning(x, z, y) && ctx.cfg.coherence.spreadMax >= 0.0
    requires p.groups == EpisodesOnly(ctx.cfg, [x, z, y], [])
    ensures Coherent(p.groups, ctx)
  {
    EpisodeMembers(p, ctx.cfg, [x, z, y], []);
    LeaningIsSane(x, z, y, ctx);
    forall layer: Layer | layer != EmbeddingSanity ensures !Broken(layer, p.groups, ctx) {
      PlainLayer(layer, p.groups, ctx);
    }
  }

  lemma DroppedIsInsane(x: Scored, z: Scored, y: Scored, p: Packet, ctx: Context)
    requires OneDimensional(ctx) && Leaning(x, z, y) && p.groups == EpisodesOnly(ctx.cfg, [x, z], [y])
    ensures Broken(EmbeddingSanity, p.groups, ctx)
  {
    EpisodeMembers(p, ctx.cfg, [x, z], [y]);
    LeftAlone(x, z, y, ctx);
  }

  /**
   * A filled packet that passes all five layers, and the lowest exemplar that an exceeded budget
   * takes from it: what ships fails the embedding layer, under the verdict of the packet before.
   */
  lemma DropCanBreakSanity(x: Scored, z: Scored, y: Scored, ctx: Context, render: Packet -> Tokens, b: Budgets)
    requires OneDimensional(ctx) && Leaning(x, z, y)
    requires ctx.cfg.quotas.episodeMemoryMin <= ctx.cfg.quotas.episodeMemoryMax && ctx.cfg.quotas.episodeMemoryMax >= 3
    requires ctx.cfg.coherence.spreadMax >= 0.0
    requires render(Fill([x, z, y], ctx.q, ctx.cfg)).exemplars > b.exemplars
    ensures var p := Fill([x, z, y], ctx.q, ctx.cfg);
            var d := ExemplarDrop(2, y);
            && Coherent(p.groups, ctx) && Legal(p, d) && CalledFor(p, d, render, b)
            && Broken(EmbeddingSanity, ApplyDrop(p, d).groups, ctx)
  {
    var p := Fill([x, z, y], ctx.q, ctx.cfg);
    LeaningFill(x, z, y, ctx.q, ctx.cfg);
    LeaningIsCoherent(x, z, y, p, ctx);
    LastEpisodeIsDue(x, z, y, p, ctx.cfg);
    LastEpisodeDropped(x, z, y, p, ctx.cfg);
    DroppedIsInsane(x, z, y, ApplyDrop(p, ExemplarDrop(2, y)), ctx);
  }
}
