/**
 * The coherence verdict is taken before the budget drops slots. Four layers survive every drop;
 * the embedding layer need not, because a drop moves the packet's centroid.
 */
module ShippedCoherence {
  import opened Orders
  import opened Candidates
  import opened Quota
  import opened PacketLaws
  import opened Coherence
  import opened SwapLoop
  import opened Budget

  // ---------------------------------------------------------------------------
  // A layer's scope only shrinks
  // ---------------------------------------------------------------------------

  ghost predicate Shrunk(a: seq<GroupV>, b: seq<GroupV>) {
    |a| == |b| && forall k | 0 <= k < |a| :: a[k].kind == b[k].kind && multiset(b[k].members) <= multiset(a[k].members)
  }

  lemma {:induction false} MembersShrink(a: seq<GroupV>, b: seq<GroupV>)
    requires Shrunk(a, b)
    ensures multiset(MembersOf(b)) <= multiset(MembersOf(a))
    decreases |a|
  {
    if a != [] {
      MembersShrink(a[..|a| - 1], b[..|b| - 1]);
    }
  }

  function ScopeOf(f: GroupV -> bool, groups: seq<GroupV>): seq<Scored>
    decreases |groups|
  {
    if groups == [] then []
    else
      var g := groups[|groups| - 1];
      ScopeOf(f, groups[..|groups| - 1]) + (if f(g) then g.members else [])
  }

  lemma {:induction false} ScopeIsFiltered(f: GroupV -> bool, groups: seq<GroupV>)
    ensures MembersOf(Filter(f, groups)) == ScopeOf(f, groups)
    decreases |groups|
  {
    if groups != [] {
      var init, g := groups[..|groups| - 1], groups[|groups| - 1];
      ScopeIsFiltered(f, init);
      assert groups == init + [g];
      FilterSnoc(f, init, g);
      MembersSnoc(Filter(f, init), g);
    }
  }

  lemma {:induction false} ScopeShrinks(f: GroupV -> bool, a: seq<GroupV>, b: seq<GroupV>)
    requires Shrunk(a, b) && forall k | 0 <= k < |a| :: f(a[k]) == f(b[k])
    ensures multiset(ScopeOf(f, b)) <= multiset(ScopeOf(f, a))
    decreases |a|
  {
    if a != [] {
      ScopeShrinks(f, a[..|a| - 1], b[..|b| - 1]);
    }
  }

  lemma DropShrinksGroups(p: Packet, d: BudgetDrop)
    ensures Shrunk(p.groups, ApplyDrop(p, d).groups)
  {
    match d
    case ProceduralDrop(_) =>
    case ExemplarDrop(i, slot) => if i < |p.groups| { RemovedParts(p.groups[i].members, slot); }
    case MemoryDrop(i, slot) => if i < |p.groups| { RemovedParts(p.groups[i].members, slot); }
  }

  lemma DropShrinksScope(layer: Layer, p: Packet, d: BudgetDrop)
    ensures multiset(InScope(layer, ApplyDrop(p, d).groups)) <= multiset(InScope(layer, p.groups))
  {
    var r := ApplyDrop(p, d);
    DropShrinksGroups(p, d);
    match layer
    case RegisterTags =>
      ScopeIsFiltered(CountsTags, p.groups);
      ScopeIsFiltered(CountsTags, r.groups);
      ScopeShrinks(CountsTags, p.groups, r.groups);
    case SignatureSpread =>
      ScopeIsFiltered(NotContrast, p.groups);
      ScopeIsFiltered(NotContrast, r.groups);
      ScopeShrinks(NotContrast, p.groups, r.groups);
    case _ =>
      MembersShrink(p.groups, r.groups);
  }

  lemma Within<T>(few: seq<T>, many: seq<T>, x: T)
    requires multiset(few) <= multiset(many) && x in few
    ensures x in many
  {
    assert x in multiset(few);
    assert x in multiset(many);
  }

  // ---------------------------------------------------------------------------
  // Fewer slots break no more of the first four layers
  // ---------------------------------------------------------------------------

  lemma FewerUnique(few: seq<Scored>, many: seq<Scored>)
    requires multiset(few) <= multiset(many) && UniqueIds(many)
    ensures UniqueIds(few)
  {
    forall x | x in few ensures x in many { Within(few, many, x); }
    forall x ensures multiset(few)[x] <= 1 {}
  }

  lemma ClashIsSymmetric(x: Candidate, y: Candidate, cfg: Config)
    requires Clash(x, y, cfg)
    ensures Clash(y, x, cfg)
  {
    var p :| p in cfg.forbiddenPairs && PairBetween(p.0, p.1, RegisterTagsOf(x, cfg), RegisterTagsOf(y, cfg));
    assert PairBetween(p.0, p.1, RegisterTagsOf(y, cfg), RegisterTagsOf(x, cfg));
  }

  lemma ClashSomewhere(ms: seq<Scored>, x: Scored, y: Scored, cfg: Config)
    requires x in ms && y in ms && x != y && Clash(x.c, y.c, cfg)
    ensures SomePairClashes(ms, cfg)
  {
    var k :| 0 <= k < |ms| && ms[k] == x;
    var l :| 0 <= l < |ms| && ms[l] == y;
    ClashIsSymmetric(x.c, y.c, cfg);
    if k < l {
      assert ClashAt(ms, cfg, k, l);
    } else {
      assert ClashAt(ms, cfg, l, k);
    }
  }

  lemma FewerPairs(few: seq<Scored>, many: seq<Scored>, cfg: Config)
    requires multiset(few) <= multiset(many) && UniqueIds(many) && SomePairClashes(few, cfg)
    ensures SomePairClashes(many, cfg)
  {
    var i: nat, j: nat :| i < j < |few| && ClashAt(few, cfg, i, j);
    assert few[i] != few[j] by {
      FewerUnique(few, many);
      UniqueIdsByIndex(few);
    }
    Within(few, many, few[i]);
    Within(few, many, few[j]);
    ClashSomewhere(many, few[i], few[j], cfg);
  }

  lemma FewerCarriers(few: seq<Scored>, many: seq<Scored>, ctx: Context)
    requires multiset(few) <= multiset(many) && SomeDimensionOverCap(few, ctx)
    ensures SomeDimensionOverCap(many, ctx)
  {
    var dim :| OverCap(few, ctx, dim);
    var a, b := Filter(Carries(dim), few), Filter(Carries(dim), many);
    FilterMultiset(Carries(dim), few);
    FilterMultiset(Carries(dim), many);
    assert multiset(a) <= multiset(b);
    assert |multiset(b) - multiset(a)| == |b| - |a|;
    assert OverCap(many, ctx, dim);
  }

  lemma SmallerSet(a: set<string>, b: set<string>)
    requires a <= b
    ensures |a| <= |b|
  {
    assert b == a + (b - a);
  }

  lemma FewerTags(few: seq<Scored>, many: seq<Scored>, cfg: Config)
    requires multiset(few) <= multiset(many) && TooManyTags(few, cfg)
    ensures TooManyTags(many, cfg)
  {
    forall t | t in AllTags(few, cfg) ensures t in AllTags(many, cfg) {
      var s := CarrierOfTag(few, cfg, t);
      Within(few, many, s);
      TagsOfMember(many, cfg, s);
    }
    SmallerSet(Distinct(AllTags(few, cfg)), Distinct(AllTags(many, cfg)));
  }

  lemma NarrowerSpread(few: seq<Scored>, many: seq<Scored>, cfg: Config)
    requires multiset(few) <= multiset(many) && SomeDimensionWide(few, cfg)
    ensures SomeDimensionWide(many, cfg)
  {
    var dim: nat :| dim < AFFECT_DIMS && Wide(few, cfg, dim);
    var a, b :| a in few && b in few && Dense(a.c, dim) - Dense(b.c, dim) > cfg.coherence.spreadMax;
    Within(few, many, a);
    Within(few, many, b);
    assert Wide(many, cfg, dim);
    assert |multiset(many) - multiset(few)| == |many| - |few|;
  }

  /** Pairs, caps, tags and spread: a drop breaks none of them. */
  lemma DropKeepsFourLayers(layer: Layer, p: Packet, d: BudgetDrop, ctx: Context)
    requires layer != EmbeddingSanity && UniqueIds(MembersOf(p.groups)) && !Broken(layer, p.groups, ctx)
    ensures !Broken(layer, ApplyDrop(p, d).groups, ctx)
  {
    var few, many := InScope(layer, ApplyDrop(p, d).groups), InScope(layer, p.groups);
    DropShrinksScope(layer, p, d);
    if Broken(layer, ApplyDrop(p, d).groups, ctx) {
      match layer
      case ForbiddenPairs => FewerPairs(few, many, ctx.cfg);
      case DimensionCaps => FewerCarriers(few, many, ctx);
      case RegisterTags => FewerTags(few, many, ctx.cfg);
      case SignatureSpread => NarrowerSpread(few, many, ctx.cfg);
    }
  }

  // ---------------------------------------------------------------------------
  // The embedding layer
  // ---------------------------------------------------------------------------

  predicate IsExemplarTier(s: Scored) {
    s.c.tier == PatternTier || s.c.tier == Episode
  }

  /** An exemplar off the query: only the packet's centroid can speak for it. */
  predicate Leans(s: Scored, ctx: Context) {
    && IsExemplarTier(s) && s.c.vec.Some?
    && ctx.cosine(s.c.vec.value, ctx.q.vec) < ctx.cfg.coherence.minQueryCos
  }

  /** The centroid does speak for it; one of another dimension says nothing. */
  predicate SpokenFor(s: Scored, centroid: seq<real>, ctx: Context)
    requires s.c.vec.Some?
  {
    (if |centroid| == |s.c.vec.value| then ctx.cosine(s.c.vec.value, centroid) else 0.0)
    >= ctx.cfg.coherence.minCentroidCos
  }

  function CentroidOf(ms: seq<Scored>): seq<real> {
    Centroid(Filter(HasVec, ms))
  }

  /** Every exemplar off the query is near the centroid of the vectors that are there. */
  ghost predicate AllSpokenFor(ms: seq<Scored>, ctx: Context) {
    forall s | s in ms && Leans(s, ctx) :: SpokenFor(s, CentroidOf(ms), ctx)
  }

  ghost predicate HaveVectors(ms: seq<Scored>) {
    forall s | s in ms && IsExemplarTier(s) :: s.c.vec.Some?
  }

  lemma SanityIff(ms: seq<Scored>, ctx: Context)
    ensures InsaneSlots(ms, ctx) == [] <==> HaveVectors(ms) && AllSpokenFor(ms, ctx)
  {
    var insane := Insane(CentroidOf(ms), ctx);
    if HaveVectors(ms) && AllSpokenFor(ms, ctx) {
      FilterNone(insane, ms);
    }
    if InsaneSlots(ms, ctx) == [] {
      forall s | s in ms ensures !insane(s) {
        assert s !in Filter(insane, ms);
      }
    }
  }

  lemma SanityLayer(groups: seq<GroupV>, ctx: Context)
    ensures Broken(EmbeddingSanity, groups, ctx) <==> InsaneSlots(MembersOf(groups), ctx) != []
  {
  }

  lemma CoherentIsSane(p: Packet, ctx: Context)
    requires Coherent(p.groups, ctx)
    ensures HaveVectors(MembersOf(p.groups)) && AllSpokenFor(MembersOf(p.groups), ctx)
  {
    assert InsaneSlots(MembersOf(p.groups), ctx) == [] by {
      SanityLayer(p.groups, ctx);
    }
    SanityIff(MembersOf(p.groups), ctx);
  }

  /** What any drops keep of a coherent packet: its ids, its vectors, and four layers. */
  ghost predicate KeepsUp(p: Packet, r: Packet, ctx: Context) {
    && multiset(MembersOf(r.groups)) <= multiset(MembersOf(p.groups))
    && UniqueIds(MembersOf(r.groups)) && HaveVectors(MembersOf(r.groups))
    && forall layer: Layer | layer != EmbeddingSanity :: !Broken(layer, r.groups, ctx)
  }

  lemma DropKeepsUp(p: Packet, r: Packet, d: BudgetDrop, ctx: Context)
    requires KeepsUp(p, r, ctx)
    ensures KeepsUp(p, ApplyDrop(r, d), ctx)
  {
    var few, many := MembersOf(ApplyDrop(r, d).groups), MembersOf(r.groups);
    DropShrinksScope(EmbeddingSanity, r, d);
    FewerUnique(few, many);
    forall s | s in few && IsExemplarTier(s) ensures s.c.vec.Some? {
      Within(few, many, s);
    }
    forall layer: Layer | layer != EmbeddingSanity ensures !Broken(layer, ApplyDrop(r, d).groups, ctx) {
      DropKeepsFourLayers(layer, r, d, ctx);
    }
  }

  lemma {:induction false} DropsKeepUp(p: Packet, drops: seq<BudgetDrop>, ctx: Context)
    requires UniqueIds(MembersOf(p.groups)) && Coherent(p.groups, ctx)
    ensures KeepsUp(p, AfterDrops(p, drops), ctx)
    decreases |drops|
  {
    if drops == [] {
      CoherentIsSane(p, ctx);
    } else {
      DropsKeepUp(p, drops[..|drops| - 1], ctx);
      DropKeepsUp(p, AfterDrops(p, drops[..|drops| - 1]), drops[|drops| - 1], ctx);
    }
  }

  lemma KeptUpIsCoherentIff(p: Packet, r: Packet, ctx: Context)
    requires KeepsUp(p, r, ctx)
    ensures Coherent(r.groups, ctx) <==> AllSpokenFor(MembersOf(r.groups), ctx)
  {
    SanityIff(MembersOf(r.groups), ctx);
    SanityLayer(r.groups, ctx);
  }

  /**
   * The verdict taken before the drops still holds of the packet that ships if and only if every
   * exemplar left that is off the query is near the centroid of the vectors left.
   */
  lemma ShipsCoherentIff(p: Packet, drops: seq<BudgetDrop>, ctx: Context)
    requires UniqueIds(MembersOf(p.groups)) && Coherent(p.groups, ctx)
    ensures Coherent(AfterDrops(p, drops).groups, ctx) <==> AllSpokenFor(MembersOf(AfterDrops(p, drops).groups), ctx)
  {
    DropsKeepUp(p, drops, ctx);
    KeptUpIsCoherentIff(p, AfterDrops(p, drops), ctx);
  }

  // ---------------------------------------------------------------------------
  // One drop
  // ---------------------------------------------------------------------------

  lemma VacatedIsRemoved(p: Packet, i: nat, slot: Scored)
    requires i < |p.groups| && slot in p.groups[i].members && UniqueIds(MembersOf(p.groups))
    ensures MembersOf(Vacated(p, i, slot).groups) == RemoveSlot(MembersOf(p.groups), slot)
  {
    var pre, own, post := MembersOf(p.groups[..i]), p.groups[i].members, MembersOf(p.groups[i + 1..]);
    MembersUpdated(p.groups, i, Vacated(p, i, slot).groups[i]);
    RemoveInOne(pre, own, post, slot);
  }

  lemma RemoveInOne(pre: seq<Scored>, own: seq<Scored>, post: seq<Scored>, slot: Scored)
    requires UniqueIds(pre + own + post) && slot in own
    ensures RemoveSlot(pre + own + post, slot) == pre + RemoveSlot(own, slot) + post
  {
    var p := (m: Scored) => m != slot;
    UniqueParts(pre + own, post);
    UniqueParts(pre, own);
    assert slot in pre + own;
    FilterAppend(p, pre + own, post);
    FilterAppend(p, pre, own);
    FilterEvery(p, pre);
    FilterEvery(p, post);
  }

  /** The slots a drop leaves, read off the packet before it. */
  function Left(p: Packet, d: BudgetDrop): seq<Scored> {
    if d.ProceduralDrop? then MembersOf(p.groups) else RemoveSlot(MembersOf(p.groups), d.slot)
  }

  lemma LeftIsLeft(p: Packet, d: BudgetDrop)
    requires UniqueIds(MembersOf(p.groups)) && Legal(p, d)
    ensures MembersOf(ApplyDrop(p, d).groups) == Left(p, d)
  {
    match d
    case ProceduralDrop(_) =>
    case ExemplarDrop(i, slot) => VacatedIsRemoved(p, i, slot);
    case MemoryDrop(i, slot) => VacatedIsRemoved(p, i, slot);
  }

  /**
   * A legal drop breaks a coherent packet exactly when it takes a slot without which the centroid
   * no longer speaks for some other exemplar off the query.
   */
  lemma DropBreaksIff(p: Packet, d: BudgetDrop, ctx: Context)
    requires UniqueIds(MembersOf(p.groups)) && Coherent(p.groups, ctx) && Legal(p, d)
    ensures !Coherent(ApplyDrop(p, d).groups, ctx) <==>
            !d.ProceduralDrop? &&
            exists s | s in MembersOf(p.groups) && s != d.slot && Leans(s, ctx) :: !SpokenFor(s, CentroidOf(Left(p, d)), ctx)
  {
    assert AfterDrops(p, []) == p && [d][..0] == [];
    assert AfterDrops(p, [d]) == ApplyDrop(p, d);
    ShipsCoherentIff(p, [d], ctx);
    LeftIsLeft(p, d);
    if !d.ProceduralDrop? {
      RemovedParts(MembersOf(p.groups), d.slot);
    }
  }

  lemma SameCentroid(ms: seq<Scored>, slot: Scored)
    requires slot.c.vec.None?
    ensures CentroidOf(RemoveSlot(ms, slot)) == CentroidOf(ms)
  {
    FilterTwice(HasVec, (m: Scored) => m != slot, ms);
  }

  /** And a slot without a vector never is one. */
  lemma VectorlessDropKeepsCoherence(p: Packet, d: BudgetDrop, ctx: Context)
    requires UniqueIds(MembersOf(p.groups)) && Coherent(p.groups, ctx) && Legal(p, d) && d.slot.c.vec.None?
    ensures Coherent(ApplyDrop(p, d).groups, ctx)
  {
    CoherentIsSane(p, ctx);
    SameCentroid(MembersOf(p.groups), d.slot);
    DropBreaksIff(p, d, ctx);
  }

  // ---------------------------------------------------------------------------
  // A condition on the candidates alone
  // ---------------------------------------------------------------------------

  /** Every pattern or episode slot is near the query itself, so none leans on the centroid. */
  ghost predicate NearQuery(p: Packet, ctx: Context) {
    forall s | s in MembersOf(p.groups) && IsExemplarTier(s) ::
      s.c.vec.Some? && ctx.cosine(s.c.vec.value, ctx.q.vec) >= ctx.cfg.coherence.minQueryCos
  }

  /** A coherent packet whose exemplars all answer the query itself ships coherent, whatever is dropped. */
  lemma ShipsCoherent(p: Packet, drops: seq<BudgetDrop>, ctx: Context)
    requires UniqueIds(MembersOf(p.groups)) && Coherent(p.groups, ctx) && NearQuery(p, ctx)
    ensures Coherent(AfterDrops(p, drops).groups, ctx) && NearQuery(AfterDrops(p, drops), ctx)
  {
    var r := AfterDrops(p, drops);
    DropsKeepUp(p, drops, ctx);
    forall s | s in MembersOf(r.groups) ensures s in MembersOf(p.groups) {
      Within(MembersOf(r.groups), MembersOf(p.groups), s);
    }
    KeptUpIsCoherentIff(p, r, ctx);
  }
}
