/**
 * The hermetic corpus check: what its verdict means, violation by violation, and that a fully
 * accepted derive run leaves a corpus that passes it.
 */
module CorpusCheck {
  import opened Orders
  import opened Enumerate
  import opened DeriveRun

  const MAX_VARIANTS_PER_SCENE := 6
  const MOOD_VARIANT := "mood-variant"

  datatype Violation =
    | MissingFile(id: string)
    | HashMismatch(id: string, fileHash: string)
    | JudgeFailed(id: string)
    | UnclaimedFile(id: string)

  /** The content id of a file's text, its id line masked. */
  type Hash = string -> string

  // ---------------------------------------------------------------------------
  // hashViolations
  // ---------------------------------------------------------------------------

  /** What is wrong with one entry; a missing file hides the rest. */
  function Faults(e: Entry, files: map<string, string>, hash: Hash): seq<Violation> {
    if e.id !in files then [MissingFile(e.id)]
    else
      (if hash(files[e.id]) != e.id then [HashMismatch(e.id, hash(files[e.id]))] else [])
      + (if !e.pass then [JudgeFailed(e.id)] else [])
  }

  predicate Attested(e: Entry, files: map<string, string>, hash: Hash) {
    e.id in files && hash(files[e.id]) == e.id && e.pass
  }

  ghost predicate AllAttested(live: seq<Entry>, files: map<string, string>, hash: Hash) {
    forall e | e in live :: Attested(e, files, hash)
  }

  ghost predicate FaultOf(live: seq<Entry>, files: map<string, string>, hash: Hash, v: Violation) {
    exists e | e in live :: v in Faults(e, files, hash)
  }

  method HashViolations(live: seq<Entry>, files: map<string, string>, hash: Hash) returns (out: seq<Violation>)
    ensures forall v :: v in out <==> FaultOf(live, files, hash, v)
    ensures out == [] <==> AllAttested(live, files, hash)
  {
    out := [];
    for i := 0 to |live|
      invariant forall v :: v in out <==> FaultOf(live[..i], files, hash, v)
    {
      var entry := live[i];
      ghost var before := out;
      assert forall e :: e in live[..i + 1] <==> e in live[..i] || e == entry;
      if entry.id !in files {
        out := out + [MissingFile(entry.id)];
        assert out == before + Faults(entry, files, hash);
        continue;
      }
      var actual := hash(files[entry.id]);
      if actual != entry.id {
        out := out + [HashMismatch(entry.id, actual)];
      }
      if !entry.pass {
        out := out + [JudgeFailed(entry.id)];
      }
      assert out == before + Faults(entry, files, hash);
    }
    assert live[..|live|] == live;
    NoFaults(live, files, hash, out);
  }

  lemma NoFaults(live: seq<Entry>, files: map<string, string>, hash: Hash, out: seq<Violation>)
    requires forall v :: v in out <==> FaultOf(live, files, hash, v)
    ensures out == [] <==> AllAttested(live, files, hash)
  {
    if !AllAttested(live, files, hash) {
      var e :| e in live && !Attested(e, files, hash);
      assert FaultOf(live, files, hash, Faults(e, files, hash)[0]);
    }
    if out != [] {
      assert FaultOf(live, files, hash, out[0]);
    }
  }

  // ---------------------------------------------------------------------------
  // unclaimedFiles
  // ---------------------------------------------------------------------------

  method UnclaimedFiles(live: seq<Entry>, ids: seq<string>) returns (out: seq<Violation>)
    ensures forall v :: v in out <==> v.UnclaimedFile? && v.id in ids && v.id !in Ids(live)
    ensures out == [] <==> forall id | id in ids :: id in Ids(live)
  {
    var claimed := Ids(live);
    var sorted := SortBy(StringLeq, ids);
    SortByIn(StringLeq, ids);
    out := [];
    for i := 0 to |sorted|
      invariant forall v :: v in out <==> v.UnclaimedFile? && v.id in sorted[..i] && v.id !in claimed
      invariant out == [] <==> forall id | id in sorted[..i] :: id in claimed
    {
      assert forall id :: id in sorted[..i + 1] <==> id in sorted[..i] || id == sorted[i];
      if sorted[i] in claimed {
        continue;
      }
      out := out + [UnclaimedFile(sorted[i])];
    }
    assert sorted[..|sorted|] == sorted;
  }

  // ---------------------------------------------------------------------------
  // capReport
  // ---------------------------------------------------------------------------

  function VariantOf(scene: string): Entry -> bool {
    (e: Entry) => e.generator == MOOD_VARIANT && e.scene == Some(scene)
  }

  function Variants(live: seq<Entry>, scene: string): nat {
    |Filter(VariantOf(scene), live)|
  }

  ghost predicate ScenesWithin(live: seq<Entry>) {
    forall scene :: Variants(live, scene) <= 6
  }

  method CountScenes(live: seq<Entry>) returns (perScene: map<string, nat>)
    ensures forall scene :: Variants(live, scene) == if scene in perScene then perScene[scene] else 0
  {
    perScene := map[];
    for i := 0 to |live|
      invariant forall scene :: Variants(live[..i], scene) == if scene in perScene then perScene[scene] else 0
    {
      var entry := live[i];
      forall scene ensures Variants(live[..i + 1], scene) == Variants(live[..i], scene) + (if VariantOf(scene)(entry) then 1 else 0) {
        assert live[..i + 1] == live[..i] + [entry];
        FilterAppend(VariantOf(scene), live[..i], [entry]);
      }
      if entry.generator != MOOD_VARIANT || entry.scene.None? {
        continue;
      }
      var scene := entry.scene.value;
      perScene := perScene[scene := (if scene in perScene then perScene[scene] else 0) + 1];
    }
    assert live[..|live|] == live;
  }

  method CapReport(max: nat, live: seq<Entry>) returns (ok: bool)
    ensures ok <==> |live| <= max && ScenesWithin(live)
  {
    var perScene := CountScenes(live);
    var over := set scene | scene in perScene && perScene[scene] > MAX_VARIANTS_PER_SCENE;
    assert over == {} <==> ScenesWithin(live) by {
      if over == {} {
        forall scene ensures Variants(live, scene) <= MAX_VARIANTS_PER_SCENE {
          assert scene !in over;
        }
      } else {
        var scene := PickOne(over);
        assert Variants(live, scene) > MAX_VARIANTS_PER_SCENE;
      }
    }
    ok := |live| <= max && over == {};
  }

  // ---------------------------------------------------------------------------
  // corpusCheck
  // ---------------------------------------------------------------------------

  /** Nothing to write, nothing to collect, every file attested and claimed, every cap held. */
  ghost predicate Clean(max: nat, all: seq<Expected>, entries: seq<Entry>, files: map<string, string>, hash: Hash) {
    && Dirty(max, all, entries) == [] && Orphans(all, entries) == []
    && AllAttested(entries, files, hash) && (forall id | id in files :: id in Ids(entries))
    && |entries| <= max && ScenesWithin(entries)
  }

  method Check(max: nat, all: seq<Expected>, entries: seq<Entry>, files: map<string, string>, listed: seq<string>, hash: Hash)
    returns (ok: bool)
    requires forall id :: id in listed <==> id in files
    ensures ok <==> Clean(max, all, entries, files, hash)
  {
    var orphans := Orphans(all, entries);
    var dirty := Dirty(max, all, entries);
    var orphanIds := Ids(orphans);
    var live := Filter((e: Entry) => e.id !in orphanIds, entries);
    if orphans == [] {
      FilterEvery((e: Entry) => e.id !in orphanIds, entries);
    }
    var faults := HashViolations(live, files, hash);
    var unclaimed := UnclaimedFiles(live, listed);
    var caps := CapReport(max, live);
    ok := dirty == [] && orphans == [] && faults + unclaimed == [] && caps;
  }

  /**
   * A run in which every dirty target was accepted leaves a corpus that passes, given that what it
   * leaves is attested: no more files than entries, within the cap before, scenes within theirs.
   */
  lemma AcceptedRunIsClean(max: nat, all: seq<Expected>, entries: seq<Entry>, outcome: Outcome,
                           files: map<string, string>, hash: Hash)
    requires Faithful(outcome) && AllAccepted(Dirty(max, all, entries), outcome)
    requires var after := EntriesAfter(max, all, entries, outcome);
             AllAttested(after, files, hash) && (forall id | id in files :: id in Ids(after))
    ensures var after := EntriesAfter(max, all, entries, outcome);
            Clean(max, all, after, files, hash) <==> |Live(all, entries)| <= max && ScenesWithin(after)
  {
    RunReachesFixpoint(max, all, entries, outcome);
    CountAfter(max, all, entries, outcome);
  }
}
