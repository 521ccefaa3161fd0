/**
 * The two tracks of a packet: what the nominators of each channel propose, and that no step of the
 * assembly moves a candidate across.
 */
module ChannelTracks {
  import opened Orders
  import opened Candidates
  import opened Intake
  import opened Quota
  import opened PacketLaws
  import opened Coherence
  import opened SwapLoop
  import opened Budget
  import opened Assembly

  // ---------------------------------------------------------------------------
  // Nominate and score
  // ---------------------------------------------------------------------------

  datatype Nominated = Nominated(characters: seq<Scored>, procedures: seq<Scored>) | Refused(id: string)

  /** Which nominators a turn consults: the channel mask, and the procedural ones only on an action intent. */
  predicate Consulted(n: NominatorPool, channels: Channels, intent: nat) {
    if n.channel == CharacterChannel then channels.character else channels.procedural && intent > 0
  }

  ghost predicate AllConsultedSane(noms: seq<NominatorPool>, channels: Channels, intent: nat) {
    forall i, j | 0 <= i < |noms| && 0 <= j < |noms[i].pool| && Consulted(noms[i], channels, intent) :: Sane(noms[i].pool[j])
  }

  function OfChannel(channel: Channel): NominatorPool -> bool {
    (n: NominatorPool) => n.channel == channel
  }

  function Asked(noms: seq<NominatorPool>, channel: Channel, on: bool): seq<NominatorPool> {
    if on then Filter(OfChannel(channel), noms) else []
  }

  ghost predicate OnTrack(p: Nominated)
    requires p.Nominated?
  {
    && (forall s | s in p.characters :: s.c.tier != Procedure)
    && (forall s | s in p.procedures :: s.c.tier == Procedure)
  }

  lemma ScoredTiers(ns: seq<Nomination>, modulation: Candidate -> real, procedure: bool)
    requires forall n | n in ns :: (n.c.tier == Procedure) == procedure
    ensures forall s | s in ScoreAll(ns, modulation) :: (s.c.tier == Procedure) == procedure
  {
    forall s | s in ScoreAll(ns, modulation) ensures (s.c.tier == Procedure) == procedure {
      var i :| 0 <= i < |ns| && ScoreAll(ns, modulation)[i] == s;
      assert ns[i] in ns;
    }
  }

  lemma AskedSane(noms: seq<NominatorPool>, channels: Channels, intent: nat)
    ensures var c := Asked(noms, CharacterChannel, channels.character);
            var p := Asked(noms, ProceduralChannel, channels.procedural && intent > 0);
            AllConsultedSane(noms, channels, intent) <==> AllSane(c, |c|) && AllSane(p, |p|)
  {
    var c, p := Asked(noms, CharacterChannel, channels.character), Asked(noms, ProceduralChannel, channels.procedural && intent > 0);
    forall i | 0 <= i < |noms| && Consulted(noms[i], channels, intent)
      ensures noms[i] in c || noms[i] in p
    {
      assert noms[i] in noms;
    }
    forall n | n in c || n in p ensures n in noms && Consulted(n, channels, intent) {}
    if AllSane(c, |c|) && AllSane(p, |p|) {
      forall i, j | 0 <= i < |noms| && 0 <= j < |noms[i].pool| && Consulted(noms[i], channels, intent)
        ensures Sane(noms[i].pool[j])
      {
        if noms[i] in c {
          var k :| 0 <= k < |c| && c[k] == noms[i];
          assert Sane(c[k].pool[j]);
        } else {
          var k :| 0 <= k < |p| && p[k] == noms[i];
          assert Sane(p[k].pool[j]);
        }
      }
    }
    if AllConsultedSane(noms, channels, intent) {
      ConsultedSane(noms, c, channels, intent);
      ConsultedSane(noms, p, channels, intent);
    }
  }

  lemma ConsultedSane(noms: seq<NominatorPool>, asked: seq<NominatorPool>, channels: Channels, intent: nat)
    requires AllConsultedSane(noms, channels, intent)
    requires forall n | n in asked :: n in noms && Consulted(n, channels, intent)
    ensures AllSane(asked, |asked|)
  {
    forall k, j | 0 <= k < |asked| && 0 <= j < |asked[k].pool| ensures Sane(asked[k].pool[j]) {
      assert asked[k] in asked;
      var i :| 0 <= i < |noms| && noms[i] == asked[k];
      assert Sane(noms[i].pool[j]);
    }
  }

  /** Whatever the candidates claim of themselves, a procedure only comes in on the procedural track, and nothing else does. */
  method NominateAndScore(noms: seq<NominatorPool>, channels: Channels, intent: nat, modulation: Candidate -> real)
    returns (r: Nominated)
    ensures r.Nominated? <==> AllConsultedSane(noms, channels, intent)
    ensures r.Nominated? ==> OnTrack(r)
    ensures r.Nominated? && !channels.character ==> r.characters == []
    ensures r.Nominated? && !(channels.procedural && intent > 0) ==> r.procedures == []
  {
    AskedSane(noms, channels, intent);
    var askedC := Asked(noms, CharacterChannel, channels.character);
    var askedP := Asked(noms, ProceduralChannel, channels.procedural && intent > 0);
    var character := NominateChannel(askedC);
    if character.BadCandidate? {
      return Refused(character.id);
    }
    var procedural := NominateChannel(askedP);
    if procedural.BadCandidate? {
      return Refused(procedural.id);
    }
    ScoredTiers(character.character, modulation, false);
    ScoredTiers(procedural.procedural, modulation, true);
    r := Nominated(ScoreAll(character.character, modulation), ScoreAll(procedural.procedural, modulation));
    assert !channels.character ==> character.character == [] by { NothingFromNobody(askedC, character.character, CharacterChannel); }
    assert !(channels.procedural && intent > 0) ==> procedural.procedural == [] by {
      NothingFromNobody(askedP, procedural.procedural, ProceduralChannel);
    }
  }

  lemma NothingFromNobody(noms: seq<NominatorPool>, ns: seq<Nomination>, channel: Channel)
    requires forall n | n in ns :: ComesThrough(noms, n, channel)
    ensures noms == [] ==> ns == []
  {
    if ns != [] {
      assert ComesThrough(noms, ns[0], channel);
    }
  }

  // ---------------------------------------------------------------------------
  // No step moves a candidate across
  // ---------------------------------------------------------------------------

  ghost predicate StockOf(p: Packet, i: int, s: Scored) {
    0 <= i < |p.groups| && (s in p.groups[i].members || s in p.groups[i].runners)
  }

  /** No procedure among the character slots and their runner-ups, nothing but procedures in the procedural ones. */
  ghost predicate Separate(p: Packet) {
    && (forall i, s | StockOf(p, i, s) :: s.c.tier != Procedure)
    && (forall s | s in p.procedural :: s.c.tier == Procedure)
  }

  ghost predicate AllFrom(g: GroupV, pool: seq<Scored>) {
    forall s | s in g.members || s in g.runners :: s in pool
  }

  lemma FilledFrom(kind: GroupKind, min: nat, ranked: seq<Scored>, quota: nat, pool: seq<Scored>)
    requires forall s | s in ranked :: s in pool
    ensures AllFrom(Filled(kind, min, ranked, quota), pool)
  {
  }

  lemma SortedFrom(order: (Scored, Scored) -> bool, p: Scored -> bool, pool: seq<Scored>)
    ensures forall s | s in SortBy(order, Filter(p, pool)) :: s in pool
  {
    SortByIn(order, Filter(p, pool));
  }

  lemma PatternStock(pool: seq<Scored>, selected: seq<Scored>, q: Query, cfg: Config)
    ensures AllFrom(FillPattern(pool, selected, q, cfg), pool)
  {
    SortedFrom(FillOrder(q, cfg), ForPattern(IdsOf(selected), q, cfg), pool);
  }

  lemma EpisodesStock(pool: seq<Scored>, selected: seq<Scored>, q: Query, cfg: Config)
    ensures AllFrom(FillEpisodes(pool, selected, q, cfg), pool)
  {
    var used := IdsOf(selected);
    SortedFrom(FillOrder(q, cfg), ForLiveMemory(used, q, cfg), pool);
    SortedFrom(FillOrder(q, cfg), ForPattern(used, q, cfg), pool);
    FilledFrom(EpisodeMemoryGroup, cfg.quotas.episodeMemoryMin, LiveMemory(pool, used, q, cfg) + Backfill(pool, used, q, cfg),
               cfg.quotas.episodeMemoryMax, pool);
  }

  lemma ContrastStock(pool: seq<Scored>, selected: seq<Scored>, q: Query, cfg: Config)
    ensures AllFrom(FillContrast(pool, selected, q, cfg), pool)
  {
    SortedFrom(ContrastOrder(MeanDense(selected)), ForContrast(selected, q, cfg), pool);
  }

  lemma FillStock(pool: seq<Scored>, q: Query, cfg: Config)
    ensures forall g | g in FillGroups(pool, q, cfg) :: AllFrom(g, pool)
  {
    var m0 := FillDisposition(pool, cfg).members;
    var m1 := m0 + FillPattern(pool, m0, q, cfg).members;
    SortedFrom(BestFirst, IsCanonDisposition, pool);
    PatternStock(pool, m0, q, cfg);
    EpisodesStock(pool, m1, q, cfg);
    ContrastStock(pool, m1 + FillEpisodes(pool, m1, q, cfg).members, q, cfg);
  }

  lemma StartSeparate(p: Nominated, channels: Channels, intent: nat, q: Query, cfg: Config)
    requires p.Nominated? && OnTrack(p)
    ensures Separate(Start(p.characters, p.procedures, channels, intent, q, cfg))
  {
    var pool := PoolOf(p.characters);
    PoolUnique(p.characters);
    PoolUnique(p.procedures);
    TopUnique(PoolOf(p.procedures), intent);
    var start := Start(p.characters, p.procedures, channels, intent, q, cfg);
    FillStock(pool, q, cfg);
    forall i, s | StockOf(start, i, s) ensures s.c.tier != Procedure {
      assert start.groups[i] in FillGroups(pool, q, cfg);
      assert AllFrom(start.groups[i], pool);
    }
  }

  lemma SwapSeparate(p: Packet, i: nat, slot: Scored)
    requires Separate(p) && i < |p.groups|
    ensures Separate(Swapped(p, i, slot))
  {
    var r := Swapped(p, i, slot);
    SwapEffect(p, i, slot);
    SlotRefilled(p, i, slot);
    RemovedParts(p.groups[i].members, slot);
    forall k, s | StockOf(r, k, s) ensures s.c.tier != Procedure {
      if k == i {
        assert s in p.groups[i].members || s in p.groups[i].runners;
      }
      assert StockOf(p, k, s);
    }
  }

  lemma DropSeparate(p: Packet, d: BudgetDrop)
    requires Separate(p)
    ensures Separate(ApplyDrop(p, d))
  {
    var r := ApplyDrop(p, d);
    forall k, s | StockOf(r, k, s) ensures s.c.tier != Procedure {
      assert StockOf(p, k, s);
    }
  }

  lemma {:induction false} SwapsSeparate(p: Packet, swaps: seq<Swap>)
    requires Separate(p)
    ensures Separate(AfterSwaps(p, swaps))
    decreases |swaps|
  {
    if swaps != [] {
      var now, w := AfterSwaps(p, swaps[..|swaps| - 1]), swaps[|swaps| - 1];
      SwapsSeparate(p, swaps[..|swaps| - 1]);
      if w.group < |now.groups| { SwapSeparate(now, w.group, w.slot); }
    }
  }

  lemma {:induction false} DropsSeparate(p: Packet, drops: seq<BudgetDrop>)
    requires Separate(p)
    ensures Separate(AfterDrops(p, drops))
    decreases |drops|
  {
    if drops != [] {
      DropsSeparate(p, drops[..|drops| - 1]);
      DropSeparate(AfterDrops(p, drops[..|drops| - 1]), drops[|drops| - 1]);
    }
  }

  /** From nomination to shipping, through every swap and every drop, the two tracks never mix. */
  lemma TracksNeverMix(p: Nominated, channels: Channels, intent: nat, q: Query, cfg: Config, swaps: seq<Swap>, drops: seq<BudgetDrop>)
    requires p.Nominated? && OnTrack(p)
    ensures Separate(AfterDrops(AfterSwaps(Start(p.characters, p.procedures, channels, intent, q, cfg), swaps), drops))
  {
    var start := Start(p.characters, p.procedures, channels, intent, q, cfg);
    StartSeparate(p, channels, intent, q, cfg);
    SwapsSeparate(start, swaps);
    DropsSeparate(AfterSwaps(start, swaps), drops);
  }
}
