/** The derive run as a whole: enumerate, drain the dirty targets, collect orphans, rebuild the manifest. */
module Derive {
  import opened Orders
  import opened Enumerate
  import opened DeriveRun
  import opened WorkerPool

  datatype Report = Report(
    targets: nat,
    written: nat,
    judgeFailed: nat,
    parseFailed: nat,
    orphans: seq<Entry>,
    droppedByCap: nat,
    entries: seq<Entry>,
    files: set<string>)

  /** The sorted manifest, the counts and the files of the sequential run. */
  ghost predicate IsRun(r: Report, max: nat, all: seq<Expected>, entries: seq<Entry>, tries: Tries, files: set<string>) {
    var dirty := Dirty(max, all, entries);
    var written := WrittenBy(dirty, OutcomeOf(tries));
    && r.targets == |dirty| && r.written == |written|
    && r.judgeFailed == |Filter(OutFor(tries, true), dirty)| && r.parseFailed == |Filter(OutFor(tries, false), dirty)|
    && r.targets == r.written + r.judgeFailed + r.parseFailed
    && r.orphans == Orphans(all, entries)
    && r.droppedByCap == |all| - |Targets(max, all, entries)|
    && r.entries == EntriesAfter(max, all, entries, OutcomeOf(tries))
    && r.files == FilesAfter(files, written, r.orphans)
  }

  method CollectOrphans(files: set<string>, orphans: seq<Entry>) returns (left: set<string>)
    ensures left == files - Ids(orphans)
  {
    left := files;
    for i := 0 to |orphans|
      invariant left == files - Ids(orphans[..i])
    {
      assert forall e :: e in orphans[..i + 1] <==> e in orphans[..i] || e == orphans[i];
      left := left - {orphans[i].id};
    }
    assert orphans[..|orphans|] == orphans;
  }

  lemma {:induction false} OneEndEach(dirty: seq<Expected>, outcome: Outcome, p: Expected -> bool, q: Expected -> bool)
    requires forall t | t in dirty :: outcome(t).Some? <==> !p(t) && !q(t)
    requires forall t | t in dirty :: !(p(t) && q(t))
    ensures |dirty| == |WrittenBy(dirty, outcome)| + |Filter(p, dirty)| + |Filter(q, dirty)|
    decreases |dirty|
  {
    if dirty != [] {
      var init, last := dirty[..|dirty| - 1], dirty[|dirty| - 1];
      assert last in dirty && forall t | t in init :: t in dirty;
      OneEndEach(init, outcome, p, q);
      FilterLast(p, dirty);
      FilterLast(q, dirty);
    }
  }

  lemma EachHasAnEnd(dirty: seq<Expected>, tries: Tries)
    ensures |dirty| == |WrittenBy(dirty, OutcomeOf(tries))| + |Filter(OutFor(tries, true), dirty)|
                       + |Filter(OutFor(tries, false), dirty)|
  {
    OneEndEach(dirty, OutcomeOf(tries), OutFor(tries, true), OutFor(tries, false));
  }

  lemma SameIds(a: seq<Entry>, b: seq<Entry>)
    requires multiset(a) == multiset(b)
    ensures Ids(a) == Ids(b) && |a| == |b|
  {
    MultisetIn(a, b);
  }

  /** The report over what the pool wrote, with orphans and survivors told apart by the capped targets. */
  function ReportOf(max: nat, all: seq<Expected>, entries: seq<Entry>, written: seq<Entry>, judgeFailed: nat,
                    parseFailed: nat, droppedByCap: nat, files: set<string>): Report
  {
    var keys := ProposedKeys(Targets(max, all, entries));
    var orphans := Filter(EntryNotIn(keys), entries);
    Report(|Dirty(max, all, entries)|, |written|, judgeFailed, parseFailed, orphans, droppedByCap,
           SortBy(EntryOrder, Filter(EntryIn(keys), entries) + written), files + Ids(written) - Ids(orphans))
  }

  lemma ReportIsRun(max: nat, all: seq<Expected>, entries: seq<Entry>, keyOf: KeyOf, tries: Tries, files: set<string>,
                    written: seq<Entry>, judgeFailed: nat, parseFailed: nat)
    requires GoodKeys(all, keyOf)
    requires var dirty := Dirty(max, all, entries);
             && multiset(written) == multiset(WrittenBy(dirty, OutcomeOf(tries)))
             && judgeFailed == |Filter(OutFor(tries, true), dirty)| && parseFailed == |Filter(OutFor(tries, false), dirty)|
    requires |all| >= |Targets(max, all, entries)|
    ensures IsRun(ReportOf(max, all, entries, written, judgeFailed, parseFailed, |all| - |Targets(max, all, entries)|, files),
                  max, all, entries, tries, files)
  {
    var dirty := Dirty(max, all, entries);
    var sequential := WrittenBy(dirty, OutcomeOf(tries));
    CapNeverOrphans(max, all, entries);
    SameIds(written, sequential);
    OutcomesAreFaithful(tries);
    WrittenManifest(max, all, entries, keyOf, OutcomeOf(tries), written);
    EachHasAnEnd(dirty, tries);
  }

  method Derive(inputs: Inputs, generators: seq<Generator>, entries: seq<Entry>, keyOf: KeyOf, tries: Tries,
                concurrency: nat, schedule: seq<nat>, files: set<string>)
    returns (r: Result<Report, EnumerationError>)
    ensures r.Ok? <==> Acceptable(inputs, generators, keyOf)
    ensures r.Err? ==> Refusal(inputs, generators, keyOf, r.error)
    ensures r.Ok? ==> IsRun(r.value, MaxDerived(inputs), AllOf(generators), entries, tries, files)
  {
    var enumerated := EnumerateTargets(inputs, generators, entries, keyOf);
    if enumerated.Err? {
      return Err(enumerated.error);
    }
    var report := RunTargets(enumerated.value, MaxDerived(inputs), AllOf(generators), entries, keyOf, tries, concurrency,
                             schedule, files);
    r := Ok(report);
  }

  method RunTargets(enumerated: Enumeration, ghost max: nat, ghost all: seq<Expected>, entries: seq<Entry>,
                    ghost keyOf: KeyOf, tries: Tries, concurrency: nat, schedule: seq<nat>, files: set<string>)
    returns (report: Report)
    requires GoodKeys(all, keyOf) && enumerated.targets == Targets(max, all, entries)
    requires enumerated.droppedByCap == |all| - |Targets(max, all, entries)|
    ensures IsRun(report, max, all, entries, tries, files)
  {
    var dirty := Filter(KeyNotIn(EntryKeys(entries)), enumerated.targets);
    var written, judgeFailed, parseFailed := DrainTargets(dirty, tries, concurrency, schedule);
    var keys := ProposedKeys(enumerated.targets);
    var orphans := Filter(EntryNotIn(keys), entries);
    var left := CollectOrphans(files + Ids(written), orphans);
    var after := SortBy(EntryOrder, Filter(EntryIn(keys), entries) + written);
    report := Report(|dirty|, |written|, judgeFailed, parseFailed, orphans, enumerated.droppedByCap, after, left);
    ReportIsRun(max, all, entries, keyOf, tries, files, written, judgeFailed, parseFailed);
    assert report == ReportOf(max, all, entries, written, judgeFailed, parseFailed, enumerated.droppedByCap, files);
  }
}
