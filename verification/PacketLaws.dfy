/**
 * What the packet keeps from the fill through every swap and every drop, and why the fill does
 * not depend on the order of the pool.
 */
module PacketLaws {
  import opened Orders
  import opened Candidates
  import opened Quota

  // ---------------------------------------------------------------------------
  // The invariant
  // ---------------------------------------------------------------------------

  function QuotaOf(kind: GroupKind, cfg: Config): nat {
    match kind
    case DispositionGroup => cfg.quotas.disposition
    case PatternGroup => cfg.quotas.pattern
    case EpisodeMemoryGroup => cfg.quotas.episodeMemoryMax
    case ContrastGroup => cfg.quotas.contrast
  }

  /** May this candidate ever stand in a group of this kind? */
  predicate Eligible(s: Scored, kind: GroupKind, q: Query, cfg: Config) {
    if kind == DispositionGroup then IsCanonDisposition(s) else ModeOk(s, q, cfg)
  }

  ghost predicate GroupSound(g: GroupV, q: Query, cfg: Config) {
    && |g.members| <= QuotaOf(g.kind, cfg)
    && (forall s | s in g.members || s in g.runners :: Eligible(s, g.kind, q, cfg))
    && (forall s | s in g.members :: s !in g.out)
  }

  /** No id twice among the character slots, and every group within its quota, its eligibility and its exile. */
  ghost predicate Sound(groups: seq<GroupV>, q: Query, cfg: Config) {
    && UniqueIds(MembersOf(groups))
    && forall i | 0 <= i < |groups| :: GroupSound(groups[i], q, cfg)
  }

  // ---------------------------------------------------------------------------
  // The fill is sound
  // ---------------------------------------------------------------------------

  lemma UniqueFilter(p: Scored -> bool, pool: seq<Scored>)
    requires UniqueIds(pool)
    ensures UniqueIds(Filter(p, pool))
  {
    FilterMultiset(p, pool);
    forall x ensures multiset(Filter(p, pool))[x] <= 1 {}
  }

  /** A group cut from ranked candidates of a pool without repeats. */
  lemma FilledSound(kind: GroupKind, min: nat, ranked: seq<Scored>, q: Query, cfg: Config)
    requires UniqueIds(ranked) && forall s | s in ranked :: Eligible(s, kind, q, cfg)
    ensures var g := Filled(kind, min, ranked, QuotaOf(kind, cfg));
            && GroupSound(g, q, cfg) && UniqueIds(g.members)
            && (forall s | s in g.members :: s in ranked)
            && ranked == g.members + g.runners
  {
    var g := Filled(kind, min, ranked, QuotaOf(kind, cfg));
    assert ranked == g.members + g.runners;
    UniqueParts(g.members, g.runners);
  }

  lemma Ranked(order: (Scored, Scored) -> bool, p: Scored -> bool, pool: seq<Scored>)
    requires UniqueIds(pool)
    ensures UniqueIds(SortBy(order, Filter(p, pool)))
    ensures forall s :: s in SortBy(order, Filter(p, pool)) <==> s in pool && p(s)
  {
    UniqueFilter(p, pool);
    SortByIn(order, Filter(p, pool));
    UniquePermuted(Filter(p, pool), SortBy(order, Filter(p, pool)));
  }

  lemma Apart(a: seq<Scored>, b: seq<Scored>)
    requires forall s | s in b :: s.c.id !in IdsOf(a)
    ensures NoSharedId(a, b)
  {
    forall x, y | x in a && y in b ensures x.c.id != y.c.id {
      assert x.c.id in IdsOf(a);
    }
  }

  lemma DispositionSound(pool: seq<Scored>, q: Query, cfg: Config)
    requires UniqueIds(pool)
    ensures var g := FillDisposition(pool, cfg);
            GroupSound(g, q, cfg) && UniqueIds(g.members)
  {
    Ranked(BestFirst, IsCanonDisposition, pool);
    FilledSound(DispositionGroup, cfg.quotas.disposition, SortBy(BestFirst, Filter(IsCanonDisposition, pool)), q, cfg);
  }

  lemma PatternSound(pool: seq<Scored>, selected: seq<Scored>, q: Query, cfg: Config)
    requires UniqueIds(pool)
    ensures var g := FillPattern(pool, selected, q, cfg);
            GroupSound(g, q, cfg) && UniqueIds(g.members) && NoSharedId(selected, g.members)
  {
    var p := ForPattern(IdsOf(selected), q, cfg);
    var ranked := SortBy(FillOrder(q, cfg), Filter(p, pool));
    Ranked(FillOrder(q, cfg), p, pool);
    FilledSound(PatternGroup, cfg.quotas.pattern, ranked, q, cfg);
    Apart(selected, FillPattern(pool, selected, q, cfg).members);
  }

  lemma LiveIsNotBackfill(pool: seq<Scored>, lives: seq<Scored>, backs: seq<Scored>)
    requires UniqueIds(pool)
    requires forall s | s in lives :: s in pool && (s.c.tier == Episode || s.c.tier == Memory)
    requires forall s | s in backs :: s in pool && PatternEligible(s)
    ensures NoSharedId(lives, backs)
  {
  }

  lemma LiveRanked(pool: seq<Scored>, used: set<string>, q: Query, cfg: Config)
    requires UniqueIds(pool)
    ensures var lives := LiveMemory(pool, used, q, cfg);
            && UniqueIds(lives)
            && forall s | s in lives ::
                 s in pool && (s.c.tier == Episode || s.c.tier == Memory) && ModeOk(s, q, cfg) && s.c.id !in used
  {
    Ranked(FillOrder(q, cfg), ForLiveMemory(used, q, cfg), pool);
  }

  lemma BackfillRanked(pool: seq<Scored>, used: set<string>, q: Query, cfg: Config)
    requires UniqueIds(pool)
    ensures var backs := Backfill(pool, used, q, cfg);
            && UniqueIds(backs)
            && forall s | s in backs :: s in pool && PatternEligible(s) && ModeOk(s, q, cfg) && s.c.id !in used
  {
    Ranked(FillOrder(q, cfg), ForPattern(used, q, cfg), pool);
  }

  lemma EpisodesRanked(pool: seq<Scored>, used: set<string>, q: Query, cfg: Config)
    requires UniqueIds(pool)
    ensures var ranked := LiveMemory(pool, used, q, cfg) + Backfill(pool, used, q, cfg);
            UniqueIds(ranked) && forall s | s in ranked :: ModeOk(s, q, cfg) && s.c.id !in used
  {
    var lives, backs := LiveMemory(pool, used, q, cfg), Backfill(pool, used, q, cfg);
    LiveRanked(pool, used, q, cfg);
    BackfillRanked(pool, used, q, cfg);
    LiveIsNotBackfill(pool, lives, backs);
    UniqueConcat(lives, backs);
  }

  lemma EpisodesSound(pool: seq<Scored>, selected: seq<Scored>, q: Query, cfg: Config)
    requires UniqueIds(pool)
    ensures var g := FillEpisodes(pool, selected, q, cfg);
            GroupSound(g, q, cfg) && UniqueIds(g.members) && NoSharedId(selected, g.members)
  {
    var used := IdsOf(selected);
    var ranked := LiveMemory(pool, used, q, cfg) + Backfill(pool, used, q, cfg);
    EpisodesRanked(pool, used, q, cfg);
    FilledSound(EpisodeMemoryGroup, cfg.quotas.episodeMemoryMin, ranked, q, cfg);
    Apart(selected, Filled(EpisodeMemoryGroup, cfg.quotas.episodeMemoryMin, ranked, cfg.quotas.episodeMemoryMax).members);
  }

  lemma ContrastRanked(pool: seq<Scored>, selected: seq<Scored>, q: Query, cfg: Config)
    requires UniqueIds(pool)
    ensures var ranked := RankContrast(pool, selected, q, cfg);
            UniqueIds(ranked) && forall s | s in ranked :: ModeOk(s, q, cfg) && s.c.id !in IdsOf(selected)
  {
    Ranked(ContrastOrder(MeanDense(selected)), ForContrast(selected, q, cfg), pool);
  }

  /** A group cut from ranked candidates that shares no id with what was selected before. */
  lemma FilledApart(kind: GroupKind, min: nat, ranked: seq<Scored>, selected: seq<Scored>, q: Query, cfg: Config)
    requires UniqueIds(ranked) && forall s | s in ranked :: Eligible(s, kind, q, cfg) && s.c.id !in IdsOf(selected)
    ensures var g := Filled(kind, min, ranked, QuotaOf(kind, cfg));
            GroupSound(g, q, cfg) && UniqueIds(g.members) && NoSharedId(selected, g.members)
  {
    FilledSound(kind, min, ranked, q, cfg);
    Apart(selected, Filled(kind, min, ranked, QuotaOf(kind, cfg)).members);
  }

  lemma ContrastSound(pool: seq<Scored>, selected: seq<Scored>, q: Query, cfg: Config)
    requires UniqueIds(pool)
    ensures var g := FillContrast(pool, selected, q, cfg);
            GroupSound(g, q, cfg) && UniqueIds(g.members) && NoSharedId(selected, g.members)
  {
    ContrastRanked(pool, selected, q, cfg);
    FilledApart(ContrastGroup, cfg.quotas.contrast, RankContrast(pool, selected, q, cfg), selected, q, cfg);
  }

  lemma FourMembers(groups: seq<GroupV>)
    requires |groups| == 4
    ensures MembersOf(groups) == groups[0].members + groups[1].members + groups[2].members + groups[3].members
  {
    assert groups[..3][..2] == groups[..2] && groups[..2][..1] == groups[..1] && groups[..1][..0] == [];
    assert MembersOf(groups[..1]) == groups[0].members;
    assert MembersOf(groups[..2]) == groups[0].members + groups[1].members;
  }

  ghost predicate FourSound(g0: GroupV, g1: GroupV, g2: GroupV, g3: GroupV, q: Query, cfg: Config) {
    GroupSound(g0, q, cfg) && GroupSound(g1, q, cfg) && GroupSound(g2, q, cfg) && GroupSound(g3, q, cfg)
  }

  lemma FourApart(g0: GroupV, g1: GroupV, g2: GroupV, g3: GroupV, q: Query, cfg: Config)
    requires FourSound(g0, g1, g2, g3, q, cfg)
    requires UniqueIds(g0.members) && UniqueIds(g1.members) && UniqueIds(g2.members) && UniqueIds(g3.members)
    requires NoSharedId(g0.members, g1.members) && NoSharedId(g0.members + g1.members, g2.members)
    requires NoSharedId(g0.members + g1.members + g2.members, g3.members)
    ensures Sound([g0, g1, g2, g3], q, cfg)
  {
    FourMembers([g0, g1, g2, g3]);
    UniqueConcat(g0.members, g1.members);
    UniqueConcat(g0.members + g1.members, g2.members);
    UniqueConcat(g0.members + g1.members + g2.members, g3.members);
  }

  /** From a deduplicated pool, the fill puts no id in two slots and every group is sound. */
  lemma FillSound(pool: seq<Scored>, q: Query, cfg: Config)
    requires UniqueIds(pool)
    ensures Sound(FillGroups(pool, q, cfg), q, cfg)
  {
    var g0 := FillDisposition(pool, cfg);
    var g1 := FillPattern(pool, g0.members, q, cfg);
    var m1 := g0.members + g1.members;
    var g2 := FillEpisodes(pool, m1, q, cfg);
    var m2 := m1 + g2.members;
    var g3 := FillContrast(pool, m2, q, cfg);
    DispositionSound(pool, q, cfg);
    PatternSound(pool, g0.members, q, cfg);
    EpisodesSound(pool, m1, q, cfg);
    ContrastSound(pool, m2, q, cfg);
    FourApart(g0, g1, g2, g3, q, cfg);
  }

  // ---------------------------------------------------------------------------
  // One group rewritten
  // ---------------------------------------------------------------------------

  function RemoveSlot(members: seq<Scored>, slot: Scored): seq<Scored> {
    Filter((m: Scored) => m != slot, members)
  }

  lemma {:induction false} MembersSplit(groups: seq<GroupV>, i: nat)
    requires i < |groups|
    ensures MembersOf(groups) == MembersOf(groups[..i]) + groups[i].members + MembersOf(groups[i + 1..])
    decreases |groups|
  {
    if i < |groups| - 1 {
      var init := groups[..|groups| - 1];
      MembersSplit(init, i);
      assert init[..i] == groups[..i] && init[i + 1..] == groups[i + 1..][..|groups| - i - 2];
    } else {
      assert groups[i + 1..] == [];
    }
  }

  lemma MembersUpdated(groups: seq<GroupV>, i: nat, g: GroupV)
    requires i < |groups|
    ensures var pre, post := MembersOf(groups[..i]), MembersOf(groups[i + 1..]);
            && MembersOf(groups) == pre + groups[i].members + post
            && MembersOf(groups[i := g]) == pre + g.members + post
  {
    MembersSplit(groups, i);
    MembersSplit(groups[i := g], i);
    assert groups[i := g][..i] == groups[..i] && groups[i := g][i + 1..] == groups[i + 1..];
  }

  lemma RemovedParts(members: seq<Scored>, slot: Scored)
    ensures forall m :: m in RemoveSlot(members, slot) <==> m in members && m != slot
    ensures multiset(RemoveSlot(members, slot)) == multiset(members)[slot := 0]
    ensures |RemoveSlot(members, slot)| <= |members|
  {
    FilterMultiset((m: Scored) => m != slot, members);
  }

  /** Shrinking one group keeps the packet's ids apart. */
  lemma UniqueShrunk(pre: seq<Scored>, old_: seq<Scored>, new_: seq<Scored>, post: seq<Scored>)
    requires UniqueIds(pre + old_ + post)
    requires forall x :: multiset(new_)[x] <= multiset(old_)[x]
    ensures UniqueIds(pre + new_ + post)
  {
    forall x ensures multiset(pre + new_ + post)[x] <= multiset(pre + old_ + post)[x] {}
    forall x | x in pre + new_ + post ensures x in pre + old_ + post {
      assert x in multiset(pre + new_ + post);
      assert x in multiset(pre + old_ + post);
    }
  }

  /** A candidate of a fresh id joins the end of one group. */
  lemma UniqueGrown(pre: seq<Scored>, mid: seq<Scored>, post: seq<Scored>, r: Scored)
    requires UniqueIds(pre + mid + post)
    requires forall x | x in pre + mid + post :: x.c.id != r.c.id
    ensures UniqueIds(pre + (mid + [r]) + post)
  {
    UniqueConcat(pre + mid + post, [r]);
    assert multiset(pre + (mid + [r]) + post) == multiset(pre + mid + post + [r]);
    UniquePermuted(pre + mid + post + [r], pre + (mid + [r]) + post);
  }

  // ---------------------------------------------------------------------------
  // Order-freedom of the fill
  // ---------------------------------------------------------------------------

  lemma FillOrderTotal(q: Query, cfg: Config, pool: seq<Scored>)
    requires Distinguished(pool)
    ensures TotalPreorder(FillOrder(q, cfg)) && Antisymmetric(FillOrder(q, cfg), pool)
  {
    BestFirstOrder();
    BestFirstAntisymmetric(pool);
  }

  lemma ContrastOrderTotal(mean: seq<real>, pool: seq<Scored>)
    requires Distinguished(pool)
    ensures TotalPreorder(ContrastOrder(mean)) && Antisymmetric(ContrastOrder(mean), pool)
  {
    BestFirstOrder();
    BestFirstAntisymmetric(pool);
  }

  lemma RankedOrderFree(order: (Scored, Scored) -> bool, p: Scored -> bool, pool: seq<Scored>, shuffled: seq<Scored>)
    requires TotalPreorder(order) && Antisymmetric(order, pool) && multiset(pool) == multiset(shuffled)
    ensures SortBy(order, Filter(p, pool)) == SortBy(order, Filter(p, shuffled))
  {
    FilterPermuted(p, pool, shuffled);
    SortOrderFree(order, Filter(p, pool), Filter(p, shuffled));
  }

  /**
   * When equal score and id mean the same candidate, any permutation of the pool gives the same
   * groups: the same members and the same runners, in the same order.
   */
  lemma FillOrderFree(pool: seq<Scored>, shuffled: seq<Scored>, q: Query, cfg: Config)
    requires multiset(pool) == multiset(shuffled) && Distinguished(pool)
    ensures Fill(pool, q, cfg) == Fill(shuffled, q, cfg)
  {
    BestFirstOrder();
    BestFirstAntisymmetric(pool);
    FillOrderTotal(q, cfg, pool);
    var order := FillOrder(q, cfg);

    RankedOrderFree(BestFirst, IsCanonDisposition, pool, shuffled);
    var m0 := FillDisposition(pool, cfg).members;
    RankedOrderFree(order, ForPattern(IdsOf(m0), q, cfg), pool, shuffled);
    var m1 := m0 + FillPattern(pool, m0, q, cfg).members;
    RankedOrderFree(order, ForLiveMemory(IdsOf(m1), q, cfg), pool, shuffled);
    RankedOrderFree(order, ForPattern(IdsOf(m1), q, cfg), pool, shuffled);
    var m2 := m1 + FillEpisodes(pool, m1, q, cfg).members;
    ContrastOrderTotal(MeanDense(m2), pool);
    RankedOrderFree(ContrastOrder(MeanDense(m2)), ForContrast(m2, q, cfg), pool, shuffled);
  }
}
