/** From nominators to the scored, deduplicated pool. */
module Intake {
  import opened Orders
  import opened Candidates

  const CREDIT_GAMMA := 0.15

  datatype Channel = CharacterChannel | ProceduralChannel

  /** A candidate as nominated, with its score inputs and the channel it claims. */
  datatype Nomination = Nomination(
    c: Candidate,
    channel: Channel,
    baseScore: real,
    baseScoreNorm: Option<real>,
    creditW: real)

  datatype NominatorPool = NominatorPool(channel: Channel, pool: seq<Nomination>)

  datatype Pools =
    | Pools(character: seq<Nomination>, procedural: seq<Nomination>)
    | BadCandidate(id: string)

  /** A rank-normalised base lies in (0, 1]. */
  predicate Sane(n: Nomination) {
    n.baseScoreNorm.Some? ==> 0.0 < n.baseScoreNorm.value <= 1.0
  }

  function ScoreOf(n: Nomination, modulation: Candidate -> real): real {
    (if n.baseScoreNorm.Some? then n.baseScoreNorm.value else n.baseScore)
    + modulation(n.c) + CREDIT_GAMMA * (n.creditW - 1.0)
  }

  /**
   * What the score is made of: the rank-normalised base when there is one, the modulation, and
   * fifteen hundredths of what the credit weight is above neutral.
   */
  lemma ScoreIsSum(n: Nomination, modulation: Candidate -> real)
    ensures n.creditW == 1.0 && n.baseScoreNorm.None? ==> ScoreOf(n, modulation) == n.baseScore + modulation(n.c)
    ensures n.creditW == 1.0 && n.baseScoreNorm.Some? ==> ScoreOf(n, modulation) == n.baseScoreNorm.value + modulation(n.c)
    ensures forall w :: ScoreOf(n.(creditW := w), modulation) - ScoreOf(n, modulation) == 0.15 * (w - n.creditW)
  {
  }

  function ScoreAll(ns: seq<Nomination>, modulation: Candidate -> real): seq<Scored> {
    seq(|ns|, i requires 0 <= i < |ns| => Scored(ns[i].c, ScoreOf(ns[i], modulation)))
  }

  /** A nomination that came through a nominator of this channel, with a tier the channel admits. */
  ghost predicate ComesThrough(noms: seq<NominatorPool>, n: Nomination, channel: Channel) {
    && n.channel == channel
    && (channel == ProceduralChannel <==> n.c.tier == Procedure)
    && exists i, j :: 0 <= i < |noms| && 0 <= j < |noms[i].pool|
                      && noms[i].channel == channel && n == noms[i].pool[j].(channel := channel)
  }

  ghost predicate AllSane(noms: seq<NominatorPool>, upTo: nat)
    requires upTo <= |noms|
  {
    forall i, j | 0 <= i < upTo && 0 <= j < |noms[i].pool| :: Sane(noms[i].pool[j])
  }

  /** Every sane nomination whose tier suits its nominator's channel is in that channel's pool. */
  ghost predicate Complete(noms: seq<NominatorPool>, upTo: nat, p: Pools)
    requires p.Pools? && upTo <= |noms|
  {
    forall i, j | 0 <= i < upTo && 0 <= j < |noms[i].pool| ::
      var n := noms[i].pool[j].(channel := noms[i].channel);
      if n.channel == CharacterChannel then n.c.tier != Procedure ==> n in p.character
      else n.c.tier == Procedure ==> n in p.procedural
  }

  /**
   * The nominator's channel decides the track, not the candidate's own field: nothing that is not
   * a procedure enters the procedural pool, no procedure the character pool, and nothing suitable
   * is lost. One insane nomination refuses the whole intake.
   */
  method NominateChannel(noms: seq<NominatorPool>) returns (r: Pools)
    ensures r.Pools? <==> AllSane(noms, |noms|)
    ensures r.Pools? ==>
              && (forall n | n in r.character :: ComesThrough(noms, n, CharacterChannel))
              && (forall n | n in r.procedural :: ComesThrough(noms, n, ProceduralChannel))
              && Complete(noms, |noms|, r)
  {
    var character, procedural := [], [];
    for i := 0 to |noms|
      invariant AllSane(noms, i)
      invariant forall n | n in character :: ComesThrough(noms, n, CharacterChannel)
      invariant forall n | n in procedural :: ComesThrough(noms, n, ProceduralChannel)
      invariant Complete(noms, i, Pools(character, procedural))
    {
      var more := SortNominations(noms, i);
      if more.BadCandidate? {
        return more;
      }
      character, procedural := character + more.character, procedural + more.procedural;
    }
    r := Pools(character, procedural);
  }

  method SortNominations(noms: seq<NominatorPool>, i: nat) returns (r: Pools)
    requires i < |noms|
    ensures r.Pools? <==> forall j | 0 <= j < |noms[i].pool| :: Sane(noms[i].pool[j])
    ensures r.Pools? ==>
              && (forall n | n in r.character :: ComesThrough(noms, n, CharacterChannel))
              && (forall n | n in r.procedural :: ComesThrough(noms, n, ProceduralChannel))
              && forall j | 0 <= j < |noms[i].pool| ::
                   var n := noms[i].pool[j].(channel := noms[i].channel);
                   if n.channel == CharacterChannel then n.c.tier != Procedure ==> n in r.character
                   else n.c.tier == Procedure ==> n in r.procedural
  {
    var character, procedural := [], [];
    var nominator := noms[i];
    for j := 0 to |nominator.pool|
      invariant forall k | 0 <= k < j :: Sane(nominator.pool[k])
      invariant forall n | n in character :: ComesThrough(noms, n, CharacterChannel)
      invariant forall n | n in procedural :: ComesThrough(noms, n, ProceduralChannel)
      invariant forall k | 0 <= k < j ::
                  var n := nominator.pool[k].(channel := nominator.channel);
                  if n.channel == CharacterChannel then n.c.tier != Procedure ==> n in character
                  else n.c.tier == Procedure ==> n in procedural
    {
      if !Sane(nominator.pool[j]) {
        return BadCandidate(nominator.pool[j].c.id);
      }
      var normalized := nominator.pool[j].(channel := nominator.channel);
      if nominator.channel == CharacterChannel && normalized.c.tier != Procedure {
        character := character + [normalized];
      } else if nominator.channel == ProceduralChannel && normalized.c.tier == Procedure {
        procedural := procedural + [normalized];
      }
    }
    r := Pools(character, procedural);
  }

  // ---------------------------------------------------------------------------
  // dedupeById
  // ---------------------------------------------------------------------------

  predicate HasId(pool: seq<Scored>, id: string) {
    exists s | s in pool :: s.c.id == id
  }

  /** The first occurrence of each id. */
  function FirstPerId(sorted: seq<Scored>): (r: seq<Scored>)
    decreases |sorted|
  {
    if sorted == [] then []
    else
      var init, s := sorted[..|sorted| - 1], sorted[|sorted| - 1];
      FirstPerId(init) + (if HasId(init, s.c.id) then [] else [s])
  }

  function Dedupe(pool: seq<Scored>): seq<Scored> {
    SortBy(BestFirst, FirstPerId(SortBy(BestFirst, pool)))
  }

  lemma {:induction false} FirstPerIdIds(sorted: seq<Scored>, id: string)
    ensures HasId(FirstPerId(sorted), id) <==> HasId(sorted, id)
    ensures forall s | s in FirstPerId(sorted) :: s in sorted
    decreases |sorted|
  {
    if sorted != [] {
      var init, s := sorted[..|sorted| - 1], sorted[|sorted| - 1];
      assert sorted == init + [s];
      FirstPerIdIds(init, id);
      assert forall x :: x in sorted <==> x in init || x == s;
      if HasId(init, id) {
        var x :| x in FirstPerId(init) && x.c.id == id;
        assert x in FirstPerId(sorted) && x in sorted;
      } else if s.c.id == id {
        assert s in FirstPerId(sorted);
      }
    }
  }

  lemma NextPerId(sorted: seq<Scored>, i: nat)
    requires i < |sorted|
    ensures var init, s := sorted[..i], sorted[i];
            FirstPerId(sorted[..i + 1]) == if HasId(init, s.c.id) then FirstPerId(init) else FirstPerId(init) + [s]
    ensures forall id :: HasId(sorted[..i + 1], id) <==> HasId(sorted[..i], id) || id == sorted[i].c.id
  {
    assert sorted[..i + 1][..i] == sorted[..i];
    assert forall x :: x in sorted[..i + 1] <==> x in sorted[..i] || x == sorted[i];
  }

  method DedupeById(pool: seq<Scored>) returns (r: seq<Scored>)
    ensures r == Dedupe(pool)
  {
    var sorted := SortBy(BestFirst, pool);
    var best: seq<Scored> := [];
    var ids: set<string> := {};
    for i := 0 to |sorted|
      invariant best == FirstPerId(sorted[..i])
      invariant forall id :: id in ids <==> HasId(sorted[..i], id)
    {
      var s := sorted[i];
      NextPerId(sorted, i);
      if s.c.id !in ids {
        best, ids := best + [s], ids + {s.c.id};
      }
    }
    assert sorted[..|sorted|] == sorted;
    r := SortBy(BestFirst, best);
  }

  lemma {:induction false} FirstPerIdUnique(sorted: seq<Scored>)
    ensures UniqueIds(FirstPerId(sorted))
    decreases |sorted|
  {
    if sorted != [] {
      var init, s := sorted[..|sorted| - 1], sorted[|sorted| - 1];
      FirstPerIdUnique(init);
      FirstPerIdIds(init, s.c.id);
      if !HasId(init, s.c.id) {
        UniqueConcat(FirstPerId(init), [s]);
      }
    }
  }

  lemma {:induction false} FirstPerIdBest(sorted: seq<Scored>, x: Scored, y: Scored)
    requires Sorted(BestFirst, sorted) && TotalPreorder(BestFirst)
    requires x in FirstPerId(sorted) && y in sorted && x.c.id == y.c.id
    ensures BestFirst(x, y)
    decreases |sorted|
  {
    var init, s := sorted[..|sorted| - 1], sorted[|sorted| - 1];
    assert sorted == init + [s];
    FirstPerIdIds(init, s.c.id);
    if x in FirstPerId(init) {
      var i :| 0 <= i < |init| && init[i] == x;
      if y in init {
        FirstPerIdBest(init, x, y);
      } else {
        assert sorted[i] == x && sorted[|sorted| - 1] == y;
      }
    }
  }

  /** One entry per nominated id. */
  lemma DedupeUnique(pool: seq<Scored>, id: string)
    ensures UniqueIds(Dedupe(pool))
    ensures HasId(Dedupe(pool), id) <==> HasId(pool, id)
  {
    var sorted := SortBy(BestFirst, pool);
    var first := FirstPerId(sorted);
    FirstPerIdUnique(sorted);
    FirstPerIdIds(sorted, id);
    SortByIn(BestFirst, pool);
    SortByIn(BestFirst, first);
  }

  /** The entry kept for an id is the best-scoring occurrence of it, and the pool comes out best first. */
  lemma DedupeKeepsBest(pool: seq<Scored>, x: Scored, y: Scored)
    requires x in Dedupe(pool) && y in pool && x.c.id == y.c.id
    ensures x in pool && BestFirst(x, y) && Sorted(BestFirst, Dedupe(pool))
  {
    var sorted := SortBy(BestFirst, pool);
    var first := FirstPerId(sorted);
    BestFirstOrder();
    SortSorted(BestFirst, pool);
    SortSorted(BestFirst, first);
    SortByIn(BestFirst, pool);
    SortByIn(BestFirst, first);
    FirstPerIdIds(sorted, x.c.id);
    FirstPerIdBest(sorted, x, y);
  }

  /** The order in which nominators answered does not matter. */
  lemma DedupeOrderFree(pool: seq<Scored>, shuffled: seq<Scored>)
    requires multiset(pool) == multiset(shuffled) && Distinguished(pool)
    ensures Dedupe(pool) == Dedupe(shuffled)
  {
    BestFirstOrder();
    BestFirstAntisymmetric(pool);
    SortOrderFree(BestFirst, pool, shuffled);
  }
}
