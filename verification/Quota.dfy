/**
 * Filling the packet's groups from the scored pool. FillCharacter builds the mutable selection;
 * Fill is the selection it must be.
 */
module Quota {
  import opened Orders
  import opened Candidates

  datatype GroupKind = DispositionGroup | PatternGroup | EpisodeMemoryGroup | ContrastGroup

  // ---------------------------------------------------------------------------
  // The mutable selection and its value
  // ---------------------------------------------------------------------------

  datatype GroupV = GroupV(kind: GroupKind, min: nat, members: seq<Scored>, runners: seq<Scored>, out: seq<Scored>)

  datatype Packet = Packet(groups: seq<GroupV>, procedural: seq<Scored>, proceduralOut: seq<Scored>, scarcity: bool)

  class Group {
    const kind: GroupKind
    const min: nat
    var members: seq<Scored>
    var runners: seq<Scored>
    var out: seq<Scored>

    constructor (k: GroupKind, floor: nat)
      ensures kind == k && min == floor && members == [] && runners == [] && out == []
    {
      kind, min, members, runners, out := k, floor, [], [], [];
    }

    function View(): GroupV
      reads this
    {
      GroupV(kind, min, members, runners, out)
    }
  }

  class Selection {
    var groups: seq<Group>
    var procedural: seq<Scored>
    var proceduralOut: seq<Scored>
    var scarcity: bool

    ghost predicate Valid()
      reads this
    {
      forall i, j | 0 <= i < j < |groups| :: groups[i] != groups[j]
    }

    constructor (gs: seq<Group>, scarce: bool)
      ensures groups == gs && procedural == [] && proceduralOut == [] && scarcity == scarce
    {
      groups, procedural, proceduralOut, scarcity := gs, [], [], scarce;
    }

    function View(): (v: Packet)
      reads this, groups
    {
      Packet(seq(|groups|, i requires 0 <= i < |groups| reads this, groups => groups[i].View()),
             procedural, proceduralOut, scarcity)
    }
  }

  // ---------------------------------------------------------------------------
  // Fill
  // ---------------------------------------------------------------------------

  function MembersOf(groups: seq<GroupV>): (ms: seq<Scored>)
    decreases |groups|
  {
    if groups == [] then [] else MembersOf(groups[..|groups| - 1]) + groups[|groups| - 1].members
  }

  function IsCanonDisposition(s: Scored): bool {
    s.c.tier == Disposition && s.c.source == Canon
  }

  /** Pattern tier, or disposition material that is not canon: demoted rather than wasted. */
  predicate PatternEligible(s: Scored) {
    s.c.tier == PatternTier || (s.c.tier == Disposition && s.c.source != Canon)
  }

  predicate ModeOk(s: Scored, q: Query, cfg: Config) {
    cfg.strict ==> ModeCompatible(s.c, q.register, cfg)
  }

  /** Strict: best first. Otherwise out-of-register material sorts behind every compatible candidate. */
  function FillOrder(q: Query, cfg: Config): (Scored, Scored) -> bool {
    if cfg.strict then BestFirst
    else
      (x: Scored, y: Scored) =>
        var okX, okY := ModeCompatible(x.c, q.register, cfg), ModeCompatible(y.c, q.register, cfg);
        if okX != okY then okX else BestFirst(x, y)
  }

  function ForPattern(used: set<string>, q: Query, cfg: Config): Scored -> bool {
    (s: Scored) => ModeOk(s, q, cfg) && s.c.id !in used && PatternEligible(s)
  }

  function ForLiveMemory(used: set<string>, q: Query, cfg: Config): Scored -> bool {
    (s: Scored) => ModeOk(s, q, cfg) && s.c.id !in used && (s.c.tier == Episode || s.c.tier == Memory)
  }

  function ForContrast(selected: seq<Scored>, q: Query, cfg: Config): Scored -> bool {
    (s: Scored) =>
      && s.c.id !in IdsOf(selected)
      && ModeOk(s, q, cfg)
      && !ForbiddenPairConflict(s.c, selected, cfg)
      && !DimensionCapConflict(s.c, selected, cfg, q.text)
  }

  /** Most dissimilar from the packet's mean signature first, then best first. */
  function ContrastOrder(mean: seq<real>): (Scored, Scored) -> bool {
    (x: Scored, y: Scored) =>
      var dx, dy := Dissimilarity(x.c, mean), Dissimilarity(y.c, mean);
      dx > dy || (dx == dy && BestFirst(x, y))
  }

  function Filled(kind: GroupKind, min: nat, ranked: seq<Scored>, quota: nat): GroupV {
    GroupV(kind, min, Take(ranked, quota), Drop(ranked, quota), [])
  }

  function FillDisposition(pool: seq<Scored>, cfg: Config): GroupV {
    Filled(DispositionGroup, cfg.quotas.disposition, SortBy(BestFirst, Filter(IsCanonDisposition, pool)),
           cfg.quotas.disposition)
  }

  function FillPattern(pool: seq<Scored>, selected: seq<Scored>, q: Query, cfg: Config): GroupV {
    Filled(PatternGroup, cfg.quotas.pattern,
           SortBy(FillOrder(q, cfg), Filter(ForPattern(IdsOf(selected), q, cfg), pool)), cfg.quotas.pattern)
  }

  function LiveMemory(pool: seq<Scored>, used: set<string>, q: Query, cfg: Config): seq<Scored> {
    SortBy(FillOrder(q, cfg), Filter(ForLiveMemory(used, q, cfg), pool))
  }

  function Backfill(pool: seq<Scored>, used: set<string>, q: Query, cfg: Config): seq<Scored> {
    SortBy(FillOrder(q, cfg), Filter(ForPattern(used, q, cfg), pool))
  }

  /** Lived material first, seed backfill second. */
  function FillEpisodes(pool: seq<Scored>, selected: seq<Scored>, q: Query, cfg: Config): GroupV {
    var used := IdsOf(selected);
    Filled(EpisodeMemoryGroup, cfg.quotas.episodeMemoryMin,
           LiveMemory(pool, used, q, cfg) + Backfill(pool, used, q, cfg), cfg.quotas.episodeMemoryMax)
  }

  function RankContrast(pool: seq<Scored>, selected: seq<Scored>, q: Query, cfg: Config): seq<Scored> {
    SortBy(ContrastOrder(MeanDense(selected)), Filter(ForContrast(selected, q, cfg), pool))
  }

  function FillContrast(pool: seq<Scored>, selected: seq<Scored>, q: Query, cfg: Config): GroupV {
    Filled(ContrastGroup, cfg.quotas.contrast, RankContrast(pool, selected, q, cfg), cfg.quotas.contrast)
  }

  function FillGroups(pool: seq<Scored>, q: Query, cfg: Config): seq<GroupV> {
    var g0 := FillDisposition(pool, cfg);
    var g1 := FillPattern(pool, g0.members, q, cfg);
    var g2 := FillEpisodes(pool, g0.members + g1.members, q, cfg);
    var g3 := FillContrast(pool, g0.members + g1.members + g2.members, q, cfg);
    [g0, g1, g2, g3]
  }

  predicate BelowFloor(g: GroupV) {
    |g.members| < g.min
  }

  function Filling(groups: seq<GroupV>): Packet {
    Packet(groups, [], [], exists g | g in groups :: BelowFloor(g))
  }

  function Fill(pool: seq<Scored>, q: Query, cfg: Config): Packet {
    Filling(FillGroups(pool, q, cfg))
  }

  method FillGroup(g: Group, ranked: seq<Scored>, quota: nat)
    requires g.out == []
    modifies g`members, g`runners
    ensures g.View() == Filled(g.kind, g.min, ranked, quota)
  {
    g.members := Take(ranked, quota);
    g.runners := Drop(ranked, quota);
  }

  method SumSignatures(members: seq<Scored>) returns (mean: seq<real>)
    ensures mean == MeanDense(members)
  {
    mean := seq(AFFECT_DIMS, _ => 0.0);
    if |members| == 0 {
      return;
    }
    for m := 0 to |members|
      invariant |mean| == AFFECT_DIMS
      invariant forall d: nat | d < AFFECT_DIMS :: mean[d] == SumDense(members[..m], d)
    {
      assert members[..m + 1][..m] == members[..m];
      ghost var before := mean;
      for d := 0 to AFFECT_DIMS
        invariant |mean| == AFFECT_DIMS
        invariant forall e: nat | e < AFFECT_DIMS ::
                    mean[e] == if e < d then before[e] + Dense(members[m].c, e) else before[e]
      {
        mean := mean[d := mean[d] + Dense(members[m].c, d)];
      }
    }
    assert members[..|members|] == members;
    for d := 0 to AFFECT_DIMS
      invariant |mean| == AFFECT_DIMS
      invariant forall e: nat | e < AFFECT_DIMS ::
                  mean[e] == if e < d then SumDense(members, e) / (|members| as real) else SumDense(members, e)
    {
      mean := mean[d := mean[d] / (|members| as real)];
    }
  }

  /** The four groups in fill order, each cut from what the earlier ones left. */
  method FillInOrder(disposition: Group, pattern: Group, episodes: Group, contrast: Group,
                     pool: seq<Scored>, q: Query, cfg: Config)
    requires disposition != pattern && disposition != episodes && disposition != contrast
    requires pattern != episodes && pattern != contrast && episodes != contrast
    requires disposition.out == pattern.out == episodes.out == contrast.out == []
    requires disposition.kind == DispositionGroup && disposition.min == cfg.quotas.disposition
    requires pattern.kind == PatternGroup && pattern.min == cfg.quotas.pattern
    requires episodes.kind == EpisodeMemoryGroup && episodes.min == cfg.quotas.episodeMemoryMin
    requires contrast.kind == ContrastGroup && contrast.min == cfg.quotas.contrast
    modifies disposition, pattern, episodes, contrast
    ensures [disposition.View(), pattern.View(), episodes.View(), contrast.View()] == FillGroups(pool, q, cfg)
  {
    FillGroup(disposition, SortBy(BestFirst, Filter(IsCanonDisposition, pool)), cfg.quotas.disposition);
    var selected := disposition.members;
    assert disposition.View() == FillDisposition(pool, cfg);

    FillGroup(pattern, SortBy(FillOrder(q, cfg), Filter(ForPattern(IdsOf(selected), q, cfg), pool)), cfg.quotas.pattern);
    assert pattern.View() == FillPattern(pool, selected, q, cfg);
    selected := selected + pattern.members;

    var used := IdsOf(selected);
    FillGroup(episodes, LiveMemory(pool, used, q, cfg) + Backfill(pool, used, q, cfg), cfg.quotas.episodeMemoryMax);
    assert episodes.View() == FillEpisodes(pool, selected, q, cfg);
    selected := selected + episodes.members;

    var mean := SumSignatures(selected);
    FillGroup(contrast, SortBy(ContrastOrder(mean), Filter(ForContrast(selected, q, cfg), pool)), cfg.quotas.contrast);
    assert contrast.View() == FillContrast(pool, selected, q, cfg);
  }

  method EmptyGroups(cfg: Config) returns (gs: seq<Group>)
    ensures fresh(gs) && |gs| == 4
    ensures forall i, j | 0 <= i < j < 4 :: gs[i] != gs[j]
    ensures gs[0].View() == GroupV(DispositionGroup, cfg.quotas.disposition, [], [], [])
    ensures gs[1].View() == GroupV(PatternGroup, cfg.quotas.pattern, [], [], [])
    ensures gs[2].View() == GroupV(EpisodeMemoryGroup, cfg.quotas.episodeMemoryMin, [], [], [])
    ensures gs[3].View() == GroupV(ContrastGroup, cfg.quotas.contrast, [], [], [])
  {
    var disposition := new Group(DispositionGroup, cfg.quotas.disposition);
    var pattern := new Group(PatternGroup, cfg.quotas.pattern);
    var episodes := new Group(EpisodeMemoryGroup, cfg.quotas.episodeMemoryMin);
    var contrast := new Group(ContrastGroup, cfg.quotas.contrast);
    gs := [disposition, pattern, episodes, contrast];
  }

  method FilledGroups(pool: seq<Scored>, q: Query, cfg: Config) returns (gs: seq<Group>)
    ensures fresh(gs) && |gs| == 4
    ensures forall i, j | 0 <= i < j < 4 :: gs[i] != gs[j]
    ensures [gs[0].View(), gs[1].View(), gs[2].View(), gs[3].View()] == FillGroups(pool, q, cfg)
  {
    gs := EmptyGroups(cfg);
    FillInOrder(gs[0], gs[1], gs[2], gs[3], pool, q, cfg);
  }

  method FillCharacter(pool: seq<Scored>, q: Query, cfg: Config) returns (sel: Selection)
    ensures fresh(sel) && fresh(sel.groups) && sel.Valid()
    ensures sel.View() == Fill(pool, q, cfg)
  {
    var gs := FilledGroups(pool, q, cfg);
    sel := Selected(gs);
    assert sel.View().groups == [gs[0].View(), gs[1].View(), gs[2].View(), gs[3].View()];
  }

  method Selected(groups: seq<Group>) returns (sel: Selection)
    ensures fresh(sel) && sel.groups == groups
    ensures sel.View() == Filling(sel.View().groups)
  {
    sel := new Selection(groups, exists g | g in groups :: |g.members| < g.min);
    var views := sel.View().groups;
    if g :| g in groups && |g.members| < g.min {
      var i :| 0 <= i < |groups| && groups[i] == g;
      assert BelowFloor(views[i]);
    }
    if v :| v in views && BelowFloor(v) {
      var i :| 0 <= i < |views| && views[i] == v;
      assert |groups[i].members| < groups[i].min;
    }
  }

  method FillProcedural(pool: seq<Scored>, quota: nat) returns (members: seq<Scored>)
    ensures members == Take(SortBy(BestFirst, pool), quota)
  {
    members := Take(SortBy(BestFirst, pool), quota);
  }
}
