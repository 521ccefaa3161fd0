/**
 * Fill, coherence, budget, in that order: what the assembled packet is guaranteed to be, and what
 * its coherence flag still says after the budget has dropped slots.
 */
module Assembly {
  import opened Orders
  import opened Candidates
  import opened Intake
  import opened Quota
  import opened PacketLaws
  import opened FillMaximal
  import opened Coherence
  import opened SwapLoop
  import opened Budget

  datatype Channels = Channels(character: bool, procedural: bool)

  // ---------------------------------------------------------------------------
  // The two channels
  // ---------------------------------------------------------------------------

  ghost predicate PoolsShareAnId(characters: seq<Scored>, procedures: seq<Scored>) {
    exists x, y :: x in characters && y in procedures && x.c.id == y.c.id
  }

  ghost predicate FromPool(p: Packet, pool: seq<Scored>) {
    forall s | s in MembersOf(p.groups) :: s in pool
  }

  lemma TakenFromPool(order: (Scored, Scored) -> bool, p: Scored -> bool, pool: seq<Scored>, n: nat)
    ensures forall s | s in Take(SortBy(order, Filter(p, pool)), n) :: s in pool
  {
    SortByIn(order, Filter(p, pool));
  }

  lemma EpisodesFromPool(pool: seq<Scored>, used: set<string>, q: Query, cfg: Config, n: nat)
    ensures forall s | s in Take(LiveMemory(pool, used, q, cfg) + Backfill(pool, used, q, cfg), n) :: s in pool
  {
    SortByIn(FillOrder(q, cfg), Filter(ForLiveMemory(used, q, cfg), pool));
    SortByIn(FillOrder(q, cfg), Filter(ForPattern(used, q, cfg), pool));
  }

  lemma FillFromPool(pool: seq<Scored>, q: Query, cfg: Config)
    ensures FromPool(Fill(pool, q, cfg), pool)
  {
    var g0 := FillDisposition(pool, cfg);
    var g1 := FillPattern(pool, g0.members, q, cfg);
    var m1 := g0.members + g1.members;
    var g2 := FillEpisodes(pool, m1, q, cfg);
    var m2 := m1 + g2.members;
    var g3 := FillContrast(pool, m2, q, cfg);
    FourMembers([g0, g1, g2, g3]);
    TakenFromPool(BestFirst, IsCanonDisposition, pool, cfg.quotas.disposition);
    TakenFromPool(FillOrder(q, cfg), ForPattern(IdsOf(g0.members), q, cfg), pool, cfg.quotas.pattern);
    EpisodesFromPool(pool, IdsOf(m1), q, cfg, cfg.quotas.episodeMemoryMax);
    TakenFromPool(ContrastOrder(MeanDense(m2)), ForContrast(m2, q, cfg), pool, cfg.quotas.contrast);
  }

  lemma {:induction false} SwapsShareNoNewId(p: Packet, swaps: seq<Swap>)
    requires !ShareAnId(p)
    ensures !ShareAnId(AfterSwaps(p, swaps))
    decreases |swaps|
  {
    if swaps != [] {
      var now, w := AfterSwaps(p, swaps[..|swaps| - 1]), swaps[|swaps| - 1];
      SwapsShareNoNewId(p, swaps[..|swaps| - 1]);
      if w.group < |now.groups| {
        SwapSharesNoNewId(now, w.group, w.slot);
      }
    }
  }

  lemma DropSharesNoNewId(p: Packet, d: BudgetDrop)
    requires !ShareAnId(p)
    ensures !ShareAnId(ApplyDrop(p, d))
  {
    var r := ApplyDrop(p, d);
    forall s | s in MembersOf(r.groups) ensures s in MembersOf(p.groups) {
      SelectedByGroup(r.groups, s);
      SelectedByGroup(p.groups, s);
      var k :| 0 <= k < |r.groups| && s in r.groups[k].members;
      assert s in p.groups[k].members;
    }
    forall s | s in r.procedural ensures s in p.procedural {}
  }

  lemma {:induction false} DropsShareNoNewId(p: Packet, drops: seq<BudgetDrop>)
    requires !ShareAnId(p)
    ensures !ShareAnId(AfterDrops(p, drops))
    decreases |drops|
  {
    if drops != [] {
      DropsShareNoNewId(p, drops[..|drops| - 1]);
      DropSharesNoNewId(AfterDrops(p, drops[..|drops| - 1]), drops[|drops| - 1]);
    }
  }

  /** An id nominated on both channels can fill a character slot and a procedural one at once. */
  lemma BothChannelsCanShowOneId(x: Scored, y: Scored, q: Query, cfg: Config)
    requires x.c.id == y.c.id && IsCanonDisposition(x) && cfg.quotas.disposition > 0
    ensures ShareAnId(Fill([x], q, cfg).(procedural := Take(SortBy(BestFirst, [y]), 1)))
  {
    var g0 := FillDisposition([x], cfg);
    assert [x][1..] == [] && Filter(IsCanonDisposition, [x]) == [x];
    assert SortBy(BestFirst, [x]) == [x] && SortBy(BestFirst, [y]) == [y];
    assert x in g0.members;
    var p := Fill([x], q, cfg).(procedural := Take(SortBy(BestFirst, [y]), 1));
    SelectedByGroup(p.groups, x);
    assert p.groups[0] == g0;
    assert x in MembersOf(p.groups) && y in p.procedural;
  }

  // ---------------------------------------------------------------------------
  // assemble
  // ---------------------------------------------------------------------------

  /** Deduplicated and ranked: what a channel selects from. */
  function PoolOf(nominated: seq<Scored>): seq<Scored> {
    SortBy(BestFirst, Dedupe(nominated))
  }

  function CharacterPacket(pool: seq<Scored>, channels: Channels, q: Query, cfg: Config): Packet {
    if channels.character then Fill(pool, q, cfg) else Packet([], [], [], false)
  }

  /** `intent` is the procedural quota of the turn. */
  function WithProcedural(p: Packet, pool: seq<Scored>, channels: Channels, intent: nat): Packet {
    if channels.procedural && intent > 0 then p.(procedural := Take(SortBy(BestFirst, pool), intent)) else p
  }

  /** The packet that enters the coherence loop. */
  function Start(characters: seq<Scored>, procedures: seq<Scored>, channels: Channels, intent: nat, q: Query, cfg: Config): Packet {
    WithProcedural(CharacterPacket(PoolOf(characters), channels, q, cfg), PoolOf(procedures), channels, intent)
  }

  function AnyProcedure(): Scored -> bool {
    (s: Scored) => true
  }

  /** The best of the pool, as many as the quota or as there are. */
  ghost predicate TheBest(taken: seq<Scored>, pool: seq<Scored>, quota: nat) {
    && |taken| <= quota && (forall s | s in taken :: s in pool)
    && (forall x, m | x in pool && x !in taken && m in taken :: !Outscores(x, m))
    && (|taken| < quota ==> forall x | x in pool :: x in taken)
  }

  lemma TopIsTheBest(pool: seq<Scored>, quota: nat)
    ensures TheBest(Take(SortBy(BestFirst, pool), quota), pool, quota)
  {
    BestFirstOrder();
    BestIsNotOutscored();
    SortedInOrder(BestFirst, ByScore(), pool);
    CutHoldsTheBest(PatternGroup, 0, quota, SortBy(BestFirst, pool), pool, AnyProcedure(), ByScore());
  }

  lemma ProceduralOf(p: Packet, pool: seq<Scored>, channels: Channels, intent: nat)
    requires p.procedural == []
    ensures WithProcedural(p, pool, channels, intent).procedural ==
            if channels.procedural then Take(SortBy(BestFirst, pool), intent) else []
  {
  }

  /**
   * When the procedural channel is on, its slots hold the best of the procedural pool, as many as
   * the action intent asks for or there are; when it is off they are empty.
   */
  lemma StartTakesTheBestProcedures(characters: seq<Scored>, procedures: seq<Scored>, channels: Channels, intent: nat,
                                    q: Query, cfg: Config)
    ensures var taken := Start(characters, procedures, channels, intent, q, cfg).procedural;
            if channels.procedural then TheBest(taken, PoolOf(procedures), intent) else taken == []
  {
    TopIsTheBest(PoolOf(procedures), intent);
    ProceduralOf(CharacterPacket(PoolOf(characters), channels, q, cfg), PoolOf(procedures), channels, intent);
  }

  lemma PoolUnique(nominated: seq<Scored>)
    ensures UniqueIds(PoolOf(nominated))
    ensures forall s | s in PoolOf(nominated) :: s in nominated
  {
    DedupeUnique(nominated, "");
    var pool := Dedupe(nominated);
    UniquePermuted(pool, SortBy(BestFirst, pool));
    SortByIn(BestFirst, pool);
    forall s | s in pool ensures s in nominated {
      DedupeKept(nominated, s);
    }
  }

  lemma DedupeKept(nominated: seq<Scored>, s: Scored)
    requires s in Dedupe(nominated)
    ensures s in nominated
  {
    var sorted := SortBy(BestFirst, nominated);
    SortByIn(BestFirst, FirstPerId(sorted));
    SortByIn(BestFirst, nominated);
    FirstPerIdIds(sorted, s.c.id);
  }

  lemma TopUnique(pool: seq<Scored>, n: nat)
    requires UniqueIds(pool)
    ensures UniqueIds(Take(SortBy(BestFirst, pool), n))
    ensures forall s | s in Take(SortBy(BestFirst, pool), n) :: s in pool
  {
    var ranked := SortBy(BestFirst, pool);
    UniquePermuted(pool, ranked);
    SortByIn(BestFirst, pool);
    assert ranked == Take(ranked, n) + Drop(ranked, n);
    UniqueParts(Take(ranked, n), Drop(ranked, n));
  }

  lemma FillIsSound(pool: seq<Scored>, q: Query, cfg: Config)
    requires UniqueIds(pool)
    ensures Sound(Fill(pool, q, cfg).groups, q, cfg) && OneEpisodeGroup(Fill(pool, q, cfg))
  {
    FillSound(pool, q, cfg);
  }

  lemma StartOf(characters: seq<Scored>, procedures: seq<Scored>, channels: Channels, intent: nat, q: Query, cfg: Config,
                filled: Packet)
    requires filled == CharacterPacket(PoolOf(characters), channels, q, cfg)
    ensures Start(characters, procedures, channels, intent, q, cfg) == WithProcedural(filled, PoolOf(procedures), channels, intent)
  {
  }

  lemma CharacterSound(pool: seq<Scored>, channels: Channels, q: Query, cfg: Config)
    requires UniqueIds(pool)
    ensures var p := CharacterPacket(pool, channels, q, cfg);
            Sound(p.groups, q, cfg) && OneEpisodeGroup(p) && p.procedural == []
  {
    if channels.character {
      FillIsSound(pool, q, cfg);
    }
  }

  lemma ProceduralSound(filled: Packet, pool: seq<Scored>, channels: Channels, intent: nat)
    requires UniqueIds(pool) && filled.procedural == []
    ensures var p := WithProcedural(filled, pool, channels, intent); p.groups == filled.groups && UniqueIds(p.procedural)
  {
    TopUnique(pool, intent);
  }

  lemma StartSound(characters: seq<Scored>, procedures: seq<Scored>, channels: Channels, intent: nat, q: Query, cfg: Config)
    ensures var p := Start(characters, procedures, channels, intent, q, cfg);
            Sound(p.groups, q, cfg) && UniqueIds(p.procedural) && OneEpisodeGroup(p)
  {
    PoolUnique(characters);
    PoolUnique(procedures);
    CharacterSound(PoolOf(characters), channels, q, cfg);
    ProceduralSound(CharacterPacket(PoolOf(characters), channels, q, cfg), PoolOf(procedures), channels, intent);
  }

  lemma StartShares(characters: seq<Scored>, procedures: seq<Scored>, channels: Channels, intent: nat, q: Query, cfg: Config)
    requires !PoolsShareAnId(characters, procedures)
    ensures !ShareAnId(Start(characters, procedures, channels, intent, q, cfg))
  {
    PoolUnique(characters);
    PoolUnique(procedures);
    TopUnique(PoolOf(procedures), intent);
    if channels.character {
      FillFromPool(PoolOf(characters), q, cfg);
    }
  }

  /** The order in which the nominators listed their candidates does not reach the packet. */
  lemma StartOrderFree(characters: seq<Scored>, procedures: seq<Scored>, cs: seq<Scored>, ps: seq<Scored>,
                       channels: Channels, intent: nat, q: Query, cfg: Config)
    requires multiset(characters) == multiset(cs) && Distinguished(characters)
    requires multiset(procedures) == multiset(ps) && Distinguished(procedures)
    ensures Start(characters, procedures, channels, intent, q, cfg) == Start(cs, ps, channels, intent, q, cfg)
  {
    DedupeOrderFree(characters, cs);
    DedupeOrderFree(procedures, ps);
  }

  /** `degraded` says whether a layer was broken when the swap loop ended. */
  ghost predicate Cohered(start: Packet, swaps: seq<Swap>, degraded: bool, channels: Channels, ctx: Context) {
    && (if channels.character then ForcedRun(start, ctx, swaps) else swaps == [])
    && |swaps| <= ctx.cfg.coherence.maxSwapRounds
    && (degraded <==> channels.character && !Coherent(AfterSwaps(start, swaps).groups, ctx))
  }

  /** Every change after the fill is a forced swap or, later, a due drop, and the budget is settled. */
  ghost predicate Assembled(start: Packet, swaps: seq<Swap>, degraded: bool, drops: seq<BudgetDrop>, end: Packet,
                            channels: Channels, ctx: Context, render: Packet -> Tokens, b: Budgets)
  {
    && Cohered(start, swaps, degraded, channels, ctx)
    && DueRun(AfterSwaps(start, swaps), drops, render, b) && end == AfterDrops(AfterSwaps(start, swaps), drops)
    && Settled(end, render, b)
  }

  method FillChannels(characters: seq<Scored>, procedures: seq<Scored>, channels: Channels, intent: nat, ctx: Context)
    returns (sel: Selection)
    ensures fresh(sel) && fresh(sel.groups) && sel.Valid()
    ensures sel.View() == Start(characters, procedures, channels, intent, ctx.q, ctx.cfg)
  {
    var characterPool := PoolDeduped(characters);
    var proceduralPool := PoolDeduped(procedures);
    sel := FillOrEmpty(characterPool, channels, ctx);
    StartOf(characters, procedures, channels, intent, ctx.q, ctx.cfg, sel.View());
    ShowProcedural(sel, proceduralPool, channels, intent);
  }

  method FillOrEmpty(pool: seq<Scored>, channels: Channels, ctx: Context) returns (sel: Selection)
    ensures fresh(sel) && fresh(sel.groups) && sel.Valid()
    ensures sel.View() == CharacterPacket(pool, channels, ctx.q, ctx.cfg)
  {
    if channels.character {
      sel := FillCharacter(pool, ctx.q, ctx.cfg);
    } else {
      sel := new Selection([], false);
      assert sel.View().groups == [];
    }
  }

  method ShowProcedural(sel: Selection, pool: seq<Scored>, channels: Channels, intent: nat)
    modifies sel`procedural
    ensures sel.View() == WithProcedural(old(sel.View()), pool, channels, intent)
  {
    ghost var groups := sel.View().groups;
    if channels.procedural && intent > 0 {
      sel.procedural := FillProcedural(pool, intent);
    }
    assert sel.View().groups == groups;
  }

  method PoolDeduped(nominated: seq<Scored>) returns (pool: seq<Scored>)
    ensures pool == PoolOf(nominated)
  {
    var deduped := DedupeById(nominated);
    pool := SortBy(BestFirst, deduped);
  }

  method Assemble(characters: seq<Scored>, procedures: seq<Scored>, channels: Channels, intent: nat, ctx: Context,
                  render: (Packet, bool) -> Tokens, b: Budgets)
    returns (sel: Selection, degraded: bool, ghost swaps: seq<Swap>, ghost drops: seq<BudgetDrop>)
    ensures fresh(sel)
    ensures Assembled(Start(characters, procedures, channels, intent, ctx.q, ctx.cfg), swaps, degraded, drops, sel.View(),
                      channels, ctx, (p: Packet) => render(p, degraded), b)
  {
    sel := FillChannels(characters, procedures, channels, intent, ctx);
    StartSound(characters, procedures, channels, intent, ctx.q, ctx.cfg);
    degraded, swaps := Cohere(sel, channels, ctx);
    var verdict := degraded;
    drops := EnforceBudgets(sel, (p: Packet) => render(p, verdict), b);
  }

  /** Coherence is the character channel's concern alone. */
  method Cohere(sel: Selection, channels: Channels, ctx: Context) returns (degraded: bool, ghost swaps: seq<Swap>)
    requires sel.Valid() && SoundFor(sel.View(), ctx) && OneEpisodeGroup(sel.View())
    modifies sel.groups
    ensures Cohered(old(sel.View()), swaps, degraded, channels, ctx)
    ensures sel.View() == AfterSwaps(old(sel.View()), swaps) && OneEpisodeGroup(sel.View())
  {
    ghost var start := sel.View();
    degraded, swaps := false, [];
    if channels.character {
      var rounds;
      degraded, rounds, swaps := RunCoherence(sel, ctx);
    }
    SwapsKeepKinds(start, swaps);
  }

  lemma SwapsKeepKinds(p: Packet, swaps: seq<Swap>)
    requires OneEpisodeGroup(p)
    ensures OneEpisodeGroup(AfterSwaps(p, swaps))
  {
    var r := AfterSwaps(p, swaps);
    forall i | 0 <= i < |p.groups| ensures |r.groups| == |p.groups| && r.groups[i].kind == p.groups[i].kind {
      SwapsExtend(p, swaps, i);
    }
    EmptyGroups(p, swaps);
  }

  lemma {:induction false} EmptyGroups(p: Packet, swaps: seq<Swap>)
    ensures |AfterSwaps(p, swaps).groups| == |p.groups|
    decreases |swaps|
  {
    if swaps != [] { EmptyGroups(p, swaps[..|swaps| - 1]); }
  }

  /**
   * However the nominations, the scores, the layers and the render turn out: no id fills two
   * character slots or two procedural ones, quotas hold, the disposition group is canon only,
   * strict registers are respected, and the channels share an id only if the nominators did.
   */
  lemma AssembledIsSound(characters: seq<Scored>, procedures: seq<Scored>, channels: Channels, intent: nat, ctx: Context,
                         swaps: seq<Swap>, degraded: bool, drops: seq<BudgetDrop>, end: Packet,
                         render: Packet -> Tokens, b: Budgets)
    requires Assembled(Start(characters, procedures, channels, intent, ctx.q, ctx.cfg), swaps, degraded, drops, end,
                       channels, ctx, render, b)
    ensures Sound(end.groups, ctx.q, ctx.cfg) && UniqueIds(end.procedural)
    ensures !PoolsShareAnId(characters, procedures) ==> !ShareAnId(end)
  {
    var start := Start(characters, procedures, channels, intent, ctx.q, ctx.cfg);
    var coherent := AfterSwaps(start, swaps);
    StartSound(characters, procedures, channels, intent, ctx.q, ctx.cfg);
    assert SoundFor(coherent, ctx) && coherent.procedural == start.procedural by {
      if channels.character {
        SwapsKeepSound(start, ctx, swaps);
      }
      SwapsKeepProcedural(start, swaps);
    }
    DropsKeepSound(coherent, drops, ctx.q, ctx.cfg);
    DropsTrim(coherent, drops, render, b);
    if !PoolsShareAnId(characters, procedures) {
      StartShares(characters, procedures, channels, intent, ctx.q, ctx.cfg);
      SwapsShareNoNewId(start, swaps);
      DropsShareNoNewId(coherent, drops);
    }
  }

  lemma {:induction false} SwapsKeepProcedural(p: Packet, swaps: seq<Swap>)
    ensures AfterSwaps(p, swaps).procedural == p.procedural
    decreases |swaps|
  {
    if swaps != [] { SwapsKeepProcedural(p, swaps[..|swaps| - 1]); }
  }
}
