/**
 * One derive run over the manifest: the entries it leaves, the fixpoint it reaches, and the files
 * the orphan collection deletes. What generation and judging make of a target is any function.
 */
module DeriveRun {
  import opened Orders
  import opened Enumerate

  /** The entry an accepted target gets, or none when it was discarded. */
  type Outcome = Expected -> Option<Entry>

  ghost predicate Faithful(outcome: Outcome) {
    forall t | outcome(t).Some? :: outcome(t).value.deriveKey == t.target.deriveKey
  }

  // ---------------------------------------------------------------------------
  // sortEntries
  // ---------------------------------------------------------------------------

  /** By deriveKey, then id. */
  predicate EntryOrder(a: Entry, b: Entry) {
    StringLess(a.deriveKey, b.deriveKey) || (a.deriveKey == b.deriveKey && StringLeq(a.id, b.id))
  }

  lemma EntryOrderTotal()
    ensures TotalPreorder(EntryOrder)
  {
    forall a, b ensures EntryOrder(a, b) || EntryOrder(b, a) {
      StringOrder(a.deriveKey, b.deriveKey);
      StringOrder(a.id, b.id);
    }
    forall a, b, c | EntryOrder(a, b) && EntryOrder(b, c) ensures EntryOrder(a, c) {
      if a.deriveKey == b.deriveKey == c.deriveKey {
        StringLessIrreflexive(a.deriveKey);
        StringLeqTransitive(a.id, b.id, c.id);
      } else if StringLess(a.deriveKey, b.deriveKey) && StringLess(b.deriveKey, c.deriveKey) {
        StringLessTransitive(a.deriveKey, b.deriveKey, c.deriveKey);
      }
    }
  }

  // ---------------------------------------------------------------------------
  // The run
  // ---------------------------------------------------------------------------

  function WrittenBy(dirty: seq<Expected>, outcome: Outcome): seq<Entry>
    decreases |dirty|
  {
    if dirty == [] then []
    else
      var t := dirty[|dirty| - 1];
      WrittenBy(dirty[..|dirty| - 1], outcome) + (if outcome(t).Some? then [outcome(t).value] else [])
  }

  /** The manifest a run leaves: what is still live, and what was accepted, in order. */
  function EntriesAfter(max: nat, all: seq<Expected>, entries: seq<Entry>, outcome: Outcome): seq<Entry> {
    SortBy(EntryOrder, Live(all, entries) + WrittenBy(Dirty(max, all, entries), outcome))
  }

  ghost predicate AllAccepted(dirty: seq<Expected>, outcome: Outcome) {
    forall t | t in dirty :: outcome(t).Some?
  }

  lemma {:induction false} WrittenEntries(dirty: seq<Expected>, outcome: Outcome)
    requires Faithful(outcome)
    ensures forall e | e in WrittenBy(dirty, outcome) :: exists t :: t in dirty && outcome(t) == Some(e)
    ensures forall t | t in dirty && outcome(t).Some? :: outcome(t).value in WrittenBy(dirty, outcome)
    ensures |WrittenBy(dirty, outcome)| <= |dirty|
    ensures AllAccepted(dirty, outcome) ==> |WrittenBy(dirty, outcome)| == |dirty|
    decreases |dirty|
  {
    if dirty != [] {
      var init, t := dirty[..|dirty| - 1], dirty[|dirty| - 1];
      assert dirty == init + [t];
      WrittenEntries(init, outcome);
    }
  }

  // ---------------------------------------------------------------------------
  // Filters that agree
  // ---------------------------------------------------------------------------

  lemma {:induction false} FilterAlike<T(!new)>(p: T -> bool, q: T -> bool, s: seq<T>)
    requires forall x | x in s :: p(x) == q(x)
    ensures Filter(p, s) == Filter(q, s)
  {
    if s != [] { FilterAlike(p, q, s[1..]); }
  }

  // ---------------------------------------------------------------------------
  // The dirty and the orphaned
  // ---------------------------------------------------------------------------

  /** The dirty targets are the first fresh proposals there is room for. */
  lemma DirtyIsKept(max: nat, all: seq<Expected>, entries: seq<Entry>)
    ensures Dirty(max, all, entries) == Kept(max, all, entries)
  {
    var keys := EntryKeys(entries);
    var live, kept := Filter(KeyIn(keys), all), Kept(max, all, entries);
    FilterAppend(KeyNotIn(keys), live, kept);
    FilterNone(KeyNotIn(keys), live);
    FilterEvery(KeyNotIn(keys), kept);
  }

  function HasEntry(entries: seq<Entry>): Expected -> bool {
    (t: Expected) => exists e | e in entries :: e.deriveKey == t.target.deriveKey
  }

  function HasNoEntry(entries: seq<Entry>): Expected -> bool {
    (t: Expected) => forall e | e in entries :: e.deriveKey != t.target.deriveKey
  }

  function StillProposed(all: seq<Expected>): Entry -> bool {
    (e: Entry) => exists t | t in all :: t.target.deriveKey == e.deriveKey
  }

  /** How many new entries the cap leaves room for. */
  function CapLeaves(max: nat, live: nat): nat {
    if live >= max then 0 else max - live
  }

  /**
   * The targets are every proposal that has an entry, then the first ones without, in registration
   * order, as many as the cap leaves room for beside the live entries; the dirty ones are the latter.
   */
  lemma TargetsFillTheCap(max: nat, all: seq<Expected>, entries: seq<Entry>)
    ensures var known, unmade := Filter(HasEntry(entries), all), Filter(HasNoEntry(entries), all);
            var live, dirty := |Filter(StillProposed(all), entries)|, Dirty(max, all, entries);
            && |dirty| == (if |unmade| <= CapLeaves(max, live) then |unmade| else CapLeaves(max, live))
            && dirty == unmade[..|dirty|]
            && Targets(max, all, entries) == known + dirty
            && |all| - |Targets(max, all, entries)| == |unmade| - |dirty|
            && (|dirty| < |unmade| ==> live + |dirty| >= max)
  {
    var keys, proposed := EntryKeys(entries), ProposedKeys(all);
    FilterAlike(HasEntry(entries), KeyIn(keys), all);
    FilterAlike(HasNoEntry(entries), KeyNotIn(keys), all);
    FilterAlike(StillProposed(all), EntryIn(proposed), entries);
    DirtyIsKept(max, all, entries);
    SplitByKey(keys, all);
  }

  /** A live entry's key is among the capped targets exactly when a generator still proposes it. */
  lemma CapKeepsLiveKeys(max: nat, all: seq<Expected>, entries: seq<Entry>, e: Entry)
    requires e in entries
    ensures e.deriveKey in ProposedKeys(Targets(max, all, entries)) <==> e.deriveKey in ProposedKeys(all)
  {
    var keys := EntryKeys(entries);
    assert e.deriveKey in keys;
    if e.deriveKey in ProposedKeys(all) {
      var t :| t in all && t.target.deriveKey == e.deriveKey;
      assert t in Filter(KeyIn(keys), all);
      assert t in Targets(max, all, entries);
    }
    if e.deriveKey in ProposedKeys(Targets(max, all, entries)) {
      var t :| t in Targets(max, all, entries) && t.target.deriveKey == e.deriveKey;
      assert t in all;
    }
  }

  /** The run looks for orphans among the capped targets, and finds those of the uncapped set. */
  lemma CapNeverOrphans(max: nat, all: seq<Expected>, entries: seq<Entry>)
    ensures Filter(EntryNotIn(ProposedKeys(Targets(max, all, entries))), entries) == Orphans(all, entries)
    ensures Filter(EntryIn(ProposedKeys(Targets(max, all, entries))), entries) == Live(all, entries)
  {
    var capped, uncapped := ProposedKeys(Targets(max, all, entries)), ProposedKeys(all);
    forall e | e in entries ensures e.deriveKey in capped <==> e.deriveKey in uncapped {
      CapKeepsLiveKeys(max, all, entries, e);
    }
    FilterAlike(EntryNotIn(capped), EntryNotIn(uncapped), entries);
    FilterAlike(EntryIn(capped), EntryIn(uncapped), entries);
  }

  /** Whatever the cap is lowered to, every live entry is still there after the run. */
  lemma LiveSurvivesAnyCap(max: nat, all: seq<Expected>, entries: seq<Entry>, outcome: Outcome, e: Entry)
    requires e in entries && e.deriveKey in ProposedKeys(all)
    ensures e in EntriesAfter(max, all, entries, outcome) && e !in Orphans(all, entries)
  {
    var kept := Live(all, entries) + WrittenBy(Dirty(max, all, entries), outcome);
    assert e in Live(all, entries);
    SortByIn(EntryOrder, kept);
  }

  // ---------------------------------------------------------------------------
  // The fixpoint
  // ---------------------------------------------------------------------------

  lemma KeysAfter(max: nat, all: seq<Expected>, entries: seq<Entry>, outcome: Outcome)
    requires Faithful(outcome)
    ensures forall e | e in EntriesAfter(max, all, entries, outcome) :: e.deriveKey in ProposedKeys(all)
    ensures AllAccepted(Dirty(max, all, entries), outcome) ==>
              forall t | t in Dirty(max, all, entries) :: t.target.deriveKey in EntryKeys(EntriesAfter(max, all, entries, outcome))
  {
    var dirty := Dirty(max, all, entries);
    var unsorted := Live(all, entries) + WrittenBy(dirty, outcome);
    var after := EntriesAfter(max, all, entries, outcome);
    SortByIn(EntryOrder, unsorted);
    WrittenEntries(dirty, outcome);
    DirtyIsKept(max, all, entries);
    forall e | e in after ensures e.deriveKey in ProposedKeys(all) {
      if e !in Live(all, entries) {
        var t :| t in dirty && outcome(t) == Some(e);
        assert t in all;
      }
    }
    if AllAccepted(dirty, outcome) {
      forall t | t in dirty ensures t.target.deriveKey in EntryKeys(after) {
        assert outcome(t).value in after;
      }
    }
  }

  /** The manifest holds what was live and what was accepted, and never outgrows the cap. */
  lemma CountAfter(max: nat, all: seq<Expected>, entries: seq<Entry>, outcome: Outcome)
    requires Faithful(outcome)
    ensures var live, after := |Live(all, entries)|, |EntriesAfter(max, all, entries, outcome)|;
            && after <= live + |Dirty(max, all, entries)|
            && (AllAccepted(Dirty(max, all, entries), outcome) ==> after == live + |Dirty(max, all, entries)|)
            && after <= (if live <= max then max else live)
  {
    WrittenEntries(Dirty(max, all, entries), outcome);
    DirtyIsKept(max, all, entries);
  }

  lemma LiveKeyStays(max: nat, all: seq<Expected>, entries: seq<Entry>, outcome: Outcome, t: Expected)
    requires t in all && t.target.deriveKey in EntryKeys(entries)
    ensures t.target.deriveKey in EntryKeys(EntriesAfter(max, all, entries, outcome))
  {
    var e :| e in entries && e.deriveKey == t.target.deriveKey;
    LiveSurvivesAnyCap(max, all, entries, outcome, e);
  }

  /** When the room was not filled, nothing fresh is left. */
  lemma NothingFreshLeft(max: nat, all: seq<Expected>, entries: seq<Entry>, outcome: Outcome)
    requires Faithful(outcome) && AllAccepted(Dirty(max, all, entries), outcome)
    requires |Dirty(max, all, entries)| < Room(max, all, entries)
    ensures Fresh(all, EntriesAfter(max, all, entries, outcome)) == []
  {
    var after := EntriesAfter(max, all, entries, outcome);
    DirtyIsKept(max, all, entries);
    assert Dirty(max, all, entries) == Fresh(all, entries);
    KeysAfter(max, all, entries, outcome);
    forall t | t in all ensures !KeyNotIn(EntryKeys(after))(t) {
      if t.target.deriveKey in EntryKeys(entries) {
        LiveKeyStays(max, all, entries, outcome, t);
      } else {
        assert t in Fresh(all, entries);
      }
    }
    FilterNone(KeyNotIn(EntryKeys(after)), all);
  }

  /**
   * After a run in which every dirty target was accepted, nothing is dirty and nothing is orphaned.
   */
  lemma RunReachesFixpoint(max: nat, all: seq<Expected>, entries: seq<Entry>, outcome: Outcome)
    requires Faithful(outcome) && AllAccepted(Dirty(max, all, entries), outcome)
    ensures var after := EntriesAfter(max, all, entries, outcome);
            Dirty(max, all, after) == [] && Orphans(all, after) == [] && Live(all, after) == after
  {
    var after := EntriesAfter(max, all, entries, outcome);
    KeysAfter(max, all, entries, outcome);
    FilterNone(EntryNotIn(ProposedKeys(all)), after);
    FilterEvery(EntryIn(ProposedKeys(all)), after);
    CountAfter(max, all, entries, outcome);
    DirtyIsKept(max, all, entries);
    DirtyIsKept(max, all, after);
    if |Dirty(max, all, entries)| < Room(max, all, entries) {
      NothingFreshLeft(max, all, entries, outcome);
    } else {
      assert Room(max, all, after) == 0;
    }
  }

  /** A second run over the same inputs writes nothing and leaves the manifest as it is. */
  lemma SecondRunChangesNothing(max: nat, all: seq<Expected>, entries: seq<Entry>, outcome: Outcome, again: Outcome)
    requires Faithful(outcome) && AllAccepted(Dirty(max, all, entries), outcome)
    ensures var after := EntriesAfter(max, all, entries, outcome);
            && WrittenBy(Dirty(max, all, after), again) == []
            && EntriesAfter(max, all, after, again) == after
  {
    var after := EntriesAfter(max, all, entries, outcome);
    RunReachesFixpoint(max, all, entries, outcome);
    EntryOrderTotal();
    SortSorted(EntryOrder, Live(all, entries) + WrittenBy(Dirty(max, all, entries), outcome));
    assert Live(all, after) + WrittenBy(Dirty(max, all, after), again) == after;
    SortOfSorted(EntryOrder, after);
  }

  // ---------------------------------------------------------------------------
  // The files
  // ---------------------------------------------------------------------------

  function Ids(entries: seq<Entry>): set<string> {
    set e | e in entries :: e.id
  }

  /** Accepted files are written first; then every orphan's file is removed by its id. */
  function FilesAfter(files: set<string>, written: seq<Entry>, orphans: seq<Entry>): set<string> {
    files + Ids(written) - Ids(orphans)
  }

  ghost predicate Backed(entries: seq<Entry>, files: set<string>) {
    forall e | e in entries :: e.id in files
  }

  ghost predicate SharesId(a: seq<Entry>, b: seq<Entry>) {
    exists x, y :: x in a && y in b && x.id == y.id
  }

  /**
   * Every entry of the new manifest has its file exactly when no orphan carries the content id of
   * an entry that stays or was just written: the collection deletes by id, after the writes.
   */
  lemma FilesBackedIffNoSharedId(max: nat, all: seq<Expected>, entries: seq<Entry>, outcome: Outcome, files: set<string>)
    requires Backed(Live(all, entries), files)
    ensures var after := EntriesAfter(max, all, entries, outcome);
            var written := WrittenBy(Dirty(max, all, entries), outcome);
            Backed(after, FilesAfter(files, written, Orphans(all, entries))) <==> !SharesId(after, Orphans(all, entries))
  {
    var after, orphans := EntriesAfter(max, all, entries, outcome), Orphans(all, entries);
    var written := WrittenBy(Dirty(max, all, entries), outcome);
    var left := FilesAfter(files, written, orphans);
    SortByIn(EntryOrder, Live(all, entries) + written);
    forall e | e in after ensures e.id in files + Ids(written) {}
    if Backed(after, left) {
      forall x, y | x in after && y in orphans ensures x.id != y.id {
        assert x.id in left && y.id in Ids(orphans);
      }
    }
    if !SharesId(after, orphans) {
      forall e | e in after ensures e.id in left {
        assert forall y | y in orphans :: y.id != e.id;
      }
    }
  }

  /** A template edit that changes the key but not the text: the new entry's own file is deleted. */
  lemma SameTextUnderNewKey(old_: Entry, t: Expected, max: nat)
    requires old_.deriveKey != t.target.deriveKey && max > 0
    ensures var outcome: Outcome := (u: Expected) => Some(old_.(deriveKey := u.target.deriveKey));
            var after := EntriesAfter(max, [t], [old_], outcome);
            var written := WrittenBy(Dirty(max, [t], [old_]), outcome);
            && after == [old_.(deriveKey := t.target.deriveKey)]
            && !Backed(after, FilesAfter({old_.id}, written, Orphans([t], [old_])))
  {
    var outcome: Outcome := (u: Expected) => Some(old_.(deriveKey := u.target.deriveKey));
    var all, entries := [t], [old_];
    assert ProposedKeys(all) == {t.target.deriveKey} && EntryKeys(entries) == {old_.deriveKey};
    assert entries[1..] == [] && all[1..] == [];
    assert Live(all, entries) == [] && Orphans(all, entries) == [old_];
    assert Fresh(all, entries) == [t];
    DirtyIsKept(max, all, entries);
    assert Dirty(max, all, entries) == [t];
    assert [t][..0] == [] && WrittenBy([], outcome) == [];
    var e := old_.(deriveKey := t.target.deriveKey);
    assert WrittenBy([t], outcome) == [e];
    assert Live(all, entries) + [e] == [e] && [e][1..] == [];
    assert SortBy(EntryOrder, [e]) == [e];
    assert e in [e] && old_ in [old_];
  }
}
