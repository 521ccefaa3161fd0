/** Candidates, their order, and the tag rules the fill and the coherence layers share. */
module Candidates {
  import opened Orders

  datatype Tier = Disposition | PatternTier | Episode | Memory | Procedure

  datatype Source = Canon | Derived | Lived | FromMemory

  /** `sig` is sparse over the affect dimensions; `vec` may be missing. */
  datatype Candidate = Candidate(
    id: string,
    tier: Tier,
    source: Source,
    tags: seq<string>,
    dimension: Option<string>,
    sig: map<nat, real>,
    vec: Option<seq<real>>)

  datatype Scored = Scored(c: Candidate, score: real)

  datatype Quotas = Quotas(
    disposition: nat,
    pattern: nat,
    episodeMemoryMin: nat,
    episodeMemoryMax: nat,
    contrast: nat)

  datatype Coherence = Coherence(
    maxRegisterTags: nat,
    spreadMax: real,
    minQueryCos: real,
    minCentroidCos: real,
    maxSwapRounds: nat)

  datatype Config = Config(
    quotas: Quotas,
    coherence: Coherence,
    registerVocab: seq<string>,
    modes: seq<string>,
    forbiddenPairs: seq<(string, string)>,
    dimensionCaps: map<string, int>,
    dimensionMatchWords: map<string, seq<string>>,
    strict: bool)

  /** What a query brings to selection: its register and its lower-cased text and goal. */
  datatype Query = Query(register: string, text: string, vec: seq<real>)

  const AFFECT_DIMS: nat := 12

  // ---------------------------------------------------------------------------
  // byScoreThenId and its reverse
  // ---------------------------------------------------------------------------

  /** Score descending, id ascending. */
  predicate BestFirst(x: Scored, y: Scored) {
    x.score > y.score || (x.score == y.score && StringLeq(x.c.id, y.c.id))
  }

  /** Score ascending, id ascending: which of two is the lower-scored. */
  predicate LowestFirst(x: Scored, y: Scored) {
    x.score < y.score || (x.score == y.score && StringLeq(x.c.id, y.c.id))
  }

  lemma BestFirstOrder()
    ensures TotalPreorder(BestFirst)
  {
    forall x, y ensures BestFirst(x, y) || BestFirst(y, x) {
      StringOrder(x.c.id, y.c.id);
    }
    forall x, y, z | BestFirst(x, y) && BestFirst(y, z) ensures BestFirst(x, z) {
      if x.score == y.score == z.score { StringLeqTransitive(x.c.id, y.c.id, z.c.id); }
    }
  }

  lemma LowestFirstOrder()
    ensures TotalPreorder(LowestFirst)
  {
    forall x, y ensures LowestFirst(x, y) || LowestFirst(y, x) {
      StringOrder(x.c.id, y.c.id);
    }
    forall x, y, z | LowestFirst(x, y) && LowestFirst(y, z) ensures LowestFirst(x, z) {
      if x.score == y.score == z.score { StringLeqTransitive(x.c.id, y.c.id, z.c.id); }
    }
  }

  /** Among different scores the lowest come first where the best come last; among equal scores both go by id. */
  lemma LowestIsBestReversed(x: Scored, y: Scored)
    ensures x.score != y.score ==> (LowestFirst(x, y) <==> BestFirst(y, x))
    ensures x.score == y.score ==> (LowestFirst(x, y) <==> BestFirst(x, y))
    ensures LowestFirst(x, y) ==> x.score <= y.score
  {
  }

  /** Equal score and id mean the same candidate: what makes every order of the pool total. */
  ghost predicate Distinguished(pool: seq<Scored>) {
    forall x, y | x in pool && y in pool :: x.score == y.score && x.c.id == y.c.id ==> x == y
  }

  lemma BestFirstAntisymmetric(pool: seq<Scored>)
    requires Distinguished(pool)
    ensures Antisymmetric(BestFirst, pool)
  {
    forall x, y | x in pool && y in pool && BestFirst(x, y) && BestFirst(y, x) ensures x == y {
      StringOrder(x.c.id, y.c.id);
    }
  }

  /** No id twice: two slots with one id would be one candidate, and no candidate is there twice. */
  ghost predicate UniqueIds(ms: seq<Scored>) {
    && (forall x, y | x in ms && y in ms :: x.c.id == y.c.id ==> x == y)
    && (forall x :: multiset(ms)[x] <= 1)
  }

  function IdsOf(ms: seq<Scored>): set<string> {
    set m | m in ms :: m.c.id
  }

  ghost predicate NoSharedId(a: seq<Scored>, b: seq<Scored>) {
    forall x, y | x in a && y in b :: x.c.id != y.c.id
  }

  lemma UniqueConcat(a: seq<Scored>, b: seq<Scored>)
    requires UniqueIds(a) && UniqueIds(b) && NoSharedId(a, b)
    ensures UniqueIds(a + b)
  {
    forall x ensures multiset(a + b)[x] <= 1 {
      assert multiset(a + b)[x] == multiset(a)[x] + multiset(b)[x];
      assert x in multiset(a) <==> x in a;
      assert x in multiset(b) <==> x in b;
    }
  }

  lemma UniqueParts(a: seq<Scored>, b: seq<Scored>)
    requires UniqueIds(a + b)
    ensures UniqueIds(a) && UniqueIds(b) && NoSharedId(a, b)
  {
    forall x ensures multiset(a)[x] + multiset(b)[x] <= 1 {
      assert multiset(a + b)[x] == multiset(a)[x] + multiset(b)[x];
    }
    forall x, y | x in a && y in b ensures x.c.id != y.c.id {
      assert x in a + b && y in a + b;
      assert x in multiset(a) && y in multiset(b);
    }
  }

  lemma UniquePermuted(a: seq<Scored>, b: seq<Scored>)
    requires UniqueIds(a) && multiset(a) == multiset(b)
    ensures UniqueIds(b) && IdsOf(a) == IdsOf(b)
  {
    MultisetIn(a, b);
  }

  /** No two positions carry the same id. */
  lemma {:induction false} UniqueIdsByIndex(ms: seq<Scored>)
    requires UniqueIds(ms)
    ensures forall i, j | 0 <= i < j < |ms| :: ms[i].c.id != ms[j].c.id
    decreases |ms|
  {
    if ms != [] {
      var init, s := ms[..|ms| - 1], ms[|ms| - 1];
      assert ms == init + [s];
      UniqueParts(init, [s]);
      UniqueIdsByIndex(init);
      forall i | 0 <= i < |init| ensures ms[i].c.id != s.c.id {
        assert init[i] in init && s in [s];
      }
    }
  }

  // ---------------------------------------------------------------------------
  // Tag rules
  // ---------------------------------------------------------------------------

  function InVocab(vocab: seq<string>): string -> bool {
    (t: string) => t in vocab
  }

  function RegisterTagsOf(c: Candidate, cfg: Config): seq<string> {
    Filter(InVocab(cfg.registerVocab), c.tags)
  }

  function ModeTagsOf(c: Candidate, cfg: Config): seq<string> {
    Filter(InVocab(cfg.modes), RegisterTagsOf(c, cfg))
  }

  /** No mode tag, or exactly one and it is the query's. */
  predicate ModeCompatible(c: Candidate, register: string, cfg: Config) {
    var modes := ModeTagsOf(c, cfg);
    |modes| == 0 || (|modes| == 1 && modes[0] == register)
  }

  predicate IsMode(tag: string, cfg: Config) {
    tag in cfg.registerVocab && tag in cfg.modes
  }

  function IsModeIn(cfg: Config): string -> bool {
    (tag: string) => IsMode(tag, cfg)
  }

  lemma {:induction false} ModeTagsAreModes(tags: seq<string>, cfg: Config)
    ensures Filter(InVocab(cfg.modes), Filter(InVocab(cfg.registerVocab), tags)) == Filter(IsModeIn(cfg), tags)
  {
    if tags != [] {
      ModeTagsAreModes(tags[1..], cfg);
      FilterAppend(InVocab(cfg.modes), if tags[0] in cfg.registerVocab then [tags[0]] else [],
                   Filter(InVocab(cfg.registerVocab), tags[1..]));
    }
  }

  ghost predicate OnlyAt<T(!new)>(p: T -> bool, s: seq<T>, i: nat) {
    i < |s| && p(s[i]) && forall j | 0 <= j < |s| && j != i :: !p(s[j])
  }

  lemma {:induction false} FilterOfOne<T(!new)>(p: T -> bool, s: seq<T>, x: T)
    ensures Filter(p, s) == [x] <==> exists i: nat :: OnlyAt(p, s, i) && s[i] == x
  {
    if s != [] {
      FilterOfOne(p, s[1..], x);
      if p(s[0]) {
        if Filter(p, s) == [x] {
          assert Filter(p, s[1..]) == [];
          forall j | 0 < j < |s| ensures !p(s[j]) { assert s[j] in s[1..]; }
          assert OnlyAt(p, s, 0);
        }
        if i: nat :| OnlyAt(p, s, i) && s[i] == x {
          assert i == 0;
          FilterNone(p, s[1..]);
        }
      } else {
        if i: nat :| OnlyAt(p, s[1..], i) && s[1..][i] == x { assert OnlyAt(p, s, i + 1); }
        if i: nat :| OnlyAt(p, s, i) && s[i] == x {
          assert i > 0;
          assert OnlyAt(p, s[1..], i - 1);
        }
      }
    }
  }

  /** A candidate fits the register exactly when none of its tags is a mode, or a single one is and it is the register. */
  lemma FitsItsOnlyMode(c: Candidate, register: string, cfg: Config)
    ensures ModeCompatible(c, register, cfg) <==>
            || (forall t | t in c.tags :: !IsMode(t, cfg))
            || exists i: nat :: OnlyAt(IsModeIn(cfg), c.tags, i) && c.tags[i] == register
  {
    var modes := Filter(IsModeIn(cfg), c.tags);
    ModeTagsAreModes(c.tags, cfg);
    FilterOfOne(IsModeIn(cfg), c.tags, register);
    if forall t | t in c.tags :: !IsMode(t, cfg) {
      FilterNone(IsModeIn(cfg), c.tags);
    } else {
      var t :| t in c.tags && IsMode(t, cfg);
      assert t in modes;
    }
    if |modes| == 1 && modes[0] == register { assert modes == [register]; }
  }

  predicate PairBetween(a: string, b: string, xs: seq<string>, ys: seq<string>) {
    (a in xs && b in ys) || (b in xs && a in ys)
  }

  /** Putting the two next to each other makes a forbidden register pair. */
  predicate Clash(x: Candidate, y: Candidate, cfg: Config) {
    exists p | p in cfg.forbiddenPairs :: PairBetween(p.0, p.1, RegisterTagsOf(x, cfg), RegisterTagsOf(y, cfg))
  }

  predicate ForbiddenPairConflict(c: Candidate, others: seq<Scored>, cfg: Config) {
    RegisterTagsOf(c, cfg) != [] && exists o | o in others :: Clash(c, o.c, cfg)
  }

  /** A tag of a candidate counts if it is in the vocabulary. */
  predicate Bears(c: Candidate, tag: string, cfg: Config) {
    tag in c.tags && tag in cfg.registerVocab
  }

  predicate BearBoth(x: Candidate, y: Candidate, p: (string, string), cfg: Config) {
    (Bears(x, p.0, cfg) && Bears(y, p.1, cfg)) || (Bears(x, p.1, cfg) && Bears(y, p.0, cfg))
  }

  /** A candidate conflicts with the others exactly when it bears one side of a forbidden pair and one of them the other. */
  lemma ConflictsOverAPair(c: Candidate, others: seq<Scored>, cfg: Config)
    ensures ForbiddenPairConflict(c, others, cfg) <==>
            exists o, p | o in others && p in cfg.forbiddenPairs :: BearBoth(c, o.c, p, cfg)
  {
    if o, p :| o in others && p in cfg.forbiddenPairs && BearBoth(c, o.c, p, cfg) {
      assert PairBetween(p.0, p.1, RegisterTagsOf(c, cfg), RegisterTagsOf(o.c, cfg));
      assert Clash(c, o.c, cfg);
      assert (if Bears(c, p.0, cfg) then p.0 else p.1) in RegisterTagsOf(c, cfg);
    }
  }

  predicate IncludesAt(text: string, word: string, i: nat)
    requires i <= |text|
  {
    word <= text[i..]
  }

  /** queryText.includes(word) */
  predicate Includes(text: string, word: string) {
    exists i: nat :: i <= |text| && IncludesAt(text, word, i)
  }

  predicate CapLifted(dim: string, text: string, cfg: Config) {
    dim in cfg.dimensionMatchWords && exists w | w in cfg.dimensionMatchWords[dim] :: Includes(text, w)
  }

  function Carries(dim: string): Scored -> bool {
    (s: Scored) => s.c.dimension == Some(dim)
  }

  predicate DimensionCapConflict(c: Candidate, others: seq<Scored>, cfg: Config, text: string) {
    exists dim | dim in cfg.dimensionCaps ::
      !CapLifted(dim, text, cfg) &&
      |Filter(Carries(dim), others + [Scored(c, 0.0)])| > cfg.dimensionCaps[dim]
  }

  // ---------------------------------------------------------------------------
  // Signature math
  // ---------------------------------------------------------------------------

  /** Sparse to dense: a missing dimension is silence. */
  function Dense(c: Candidate, dim: nat): real {
    if dim in c.sig then c.sig[dim] else 0.0
  }

  function SumDense(members: seq<Scored>, dim: nat): real
    decreases |members|
  {
    if members == [] then 0.0
    else SumDense(members[..|members| - 1], dim) + Dense(members[|members| - 1].c, dim)
  }

  /** The packet's affect centre of mass. */
  function MeanDense(members: seq<Scored>): seq<real> {
    seq(AFFECT_DIMS, d requires 0 <= d => if members == [] then 0.0 else SumDense(members, d) / (|members| as real))
  }

  function SquaresTo(c: Candidate, mean: seq<real>, n: nat): real
    requires n <= |mean|
  {
    if n == 0 then 0.0
    else
      var d := Dense(c, n - 1) - mean[n - 1];
      SquaresTo(c, mean, n - 1) + d * d
  }

  /** The squared distance from the mean: it orders candidates as the distance does. */
  function Dissimilarity(c: Candidate, mean: seq<real>): real {
    SquaresTo(c, mean, |mean|)
  }
}
