/**
 * Target enumeration under the global cap, and the dirty and orphan sets. A generator is what it
 * proposes for the inputs at hand; the derive key is any function of name, version and parts.
 */
module Enumerate {
  import opened Orders

  datatype Result<+T, +E> = Ok(value: T) | Err(error: E)

  datatype Target = Target(deriveKey: string, parts: string)

  datatype Generator = Generator(name: string, version: string, targets: seq<Target>)

  /** A proposal with the generator that owns it. */
  datatype Expected = Expected(name: string, version: string, target: Target)

  datatype Entry = Entry(id: string, deriveKey: string, generator: string, scene: Option<string>, pass: bool)

  /** `gravityCap` is missing when it is not a finite number. */
  datatype Inputs = Inputs(gravityCap: Option<real>, canonCount: nat)

  datatype EnumerationError =
    | DuplicateGenerator(name: string)
    | BadGravityCap
    | BadDeriveKey(generator: string)
    | DuplicateDeriveKey(key: string)

  datatype Enumeration = Enumeration(targets: seq<Expected>, droppedByCap: nat, maxDerived: nat)

  type KeyOf = (string, string, string) -> string

  // ---------------------------------------------------------------------------
  // Proposals
  // ---------------------------------------------------------------------------

  function ExpectedOf(g: Generator): seq<Expected> {
    seq(|g.targets|, i requires 0 <= i < |g.targets| => Expected(g.name, g.version, g.targets[i]))
  }

  /** Every proposal in registration order. */
  function AllOf(generators: seq<Generator>): seq<Expected>
    decreases |generators|
  {
    if generators == [] then []
    else AllOf(generators[..|generators| - 1]) + ExpectedOf(generators[|generators| - 1])
  }

  function ProposedKeys(all: seq<Expected>): set<string> {
    set t | t in all :: t.target.deriveKey
  }

  function EntryKeys(entries: seq<Entry>): set<string> {
    set e | e in entries :: e.deriveKey
  }

  function KeyIn(keys: set<string>): Expected -> bool {
    (t: Expected) => t.target.deriveKey in keys
  }

  function KeyNotIn(keys: set<string>): Expected -> bool {
    (t: Expected) => t.target.deriveKey !in keys
  }

  function EntryIn(keys: set<string>): Entry -> bool {
    (e: Entry) => e.deriveKey in keys
  }

  function EntryNotIn(keys: set<string>): Entry -> bool {
    (e: Entry) => e.deriveKey !in keys
  }

  function Live(all: seq<Expected>, entries: seq<Entry>): seq<Entry> {
    Filter(EntryIn(ProposedKeys(all)), entries)
  }

  /** Entries no generator proposes any more, whatever the cap. */
  function Orphans(all: seq<Expected>, entries: seq<Entry>): seq<Entry> {
    Filter(EntryNotIn(ProposedKeys(all)), entries)
  }

  function Fresh(all: seq<Expected>, entries: seq<Entry>): seq<Expected> {
    Filter(KeyNotIn(EntryKeys(entries)), all)
  }

  function Room(max: nat, all: seq<Expected>, entries: seq<Entry>): nat {
    if |Live(all, entries)| <= max then max - |Live(all, entries)| else 0
  }

  function Kept(max: nat, all: seq<Expected>, entries: seq<Entry>): seq<Expected> {
    Take(Fresh(all, entries), Room(max, all, entries))
  }

  /** The expected targets under the cap: what is live already, then what there is room for. */
  function Targets(max: nat, all: seq<Expected>, entries: seq<Entry>): seq<Expected> {
    Filter(KeyIn(EntryKeys(entries)), all) + Kept(max, all, entries)
  }

  function Dirty(max: nat, all: seq<Expected>, entries: seq<Entry>): seq<Expected> {
    Filter(KeyNotIn(EntryKeys(entries)), Targets(max, all, entries))
  }

  // ---------------------------------------------------------------------------
  // What the enumeration refuses
  // ---------------------------------------------------------------------------

  ghost predicate RepeatsName(generators: seq<Generator>, k: int)
    requires 0 <= k < |generators|
  {
    exists i :: 0 <= i < k && generators[i].name == generators[k].name
  }

  ghost predicate UniqueNames(generators: seq<Generator>) {
    forall k | 0 <= k < |generators| :: !RepeatsName(generators, k)
  }

  predicate CapOk(inputs: Inputs) {
    inputs.gravityCap.Some? && inputs.gravityCap.value >= 0.0
  }

  /** Floor keeps the ratio within the cap when the product is not whole. */
  function MaxDerived(inputs: Inputs): (max: nat)
    requires CapOk(inputs)
    ensures max as real <= inputs.gravityCap.value * inputs.canonCount as real < max as real + 1.0
  {
    var product := inputs.gravityCap.value * inputs.canonCount as real;
    assert product >= 0.0;
    product.Floor
  }

  predicate BadKeyAt(all: seq<Expected>, keyOf: KeyOf, k: int)
    requires 0 <= k < |all|
  {
    all[k].target.deriveKey != keyOf(all[k].name, all[k].version, all[k].target.parts)
  }

  ghost predicate RepeatsKey(all: seq<Expected>, k: int)
    requires 0 <= k < |all|
  {
    exists i :: 0 <= i < k && all[i].target.deriveKey == all[k].target.deriveKey
  }

  ghost predicate KeyRefused(all: seq<Expected>, keyOf: KeyOf, k: int)
    requires 0 <= k < |all|
  {
    BadKeyAt(all, keyOf, k) || RepeatsKey(all, k)
  }

  ghost predicate GoodKeys(all: seq<Expected>, keyOf: KeyOf) {
    forall k | 0 <= k < |all| :: !KeyRefused(all, keyOf, k)
  }

  ghost predicate FirstRepeatedName(generators: seq<Generator>, k: int) {
    0 <= k < |generators| && RepeatsName(generators, k) && forall j | 0 <= j < k :: !RepeatsName(generators, j)
  }

  ghost predicate FirstRefused(all: seq<Expected>, keyOf: KeyOf, k: int) {
    0 <= k < |all| && KeyRefused(all, keyOf, k) && forall j | 0 <= j < k :: !KeyRefused(all, keyOf, j)
  }

  /** Which refusal it is: names first, then the cap, then the first bad or repeated key. */
  ghost predicate Refusal(inputs: Inputs, generators: seq<Generator>, keyOf: KeyOf, e: EnumerationError) {
    var all := AllOf(generators);
    match e
    case DuplicateGenerator(name) => exists k :: FirstRepeatedName(generators, k) && generators[k].name == name
    case BadGravityCap => UniqueNames(generators) && !CapOk(inputs)
    case BadDeriveKey(name) =>
      UniqueNames(generators) && CapOk(inputs) &&
      exists k :: FirstRefused(all, keyOf, k) && BadKeyAt(all, keyOf, k) && all[k].name == name
    case DuplicateDeriveKey(key) =>
      UniqueNames(generators) && CapOk(inputs) &&
      exists k :: FirstRefused(all, keyOf, k) && !BadKeyAt(all, keyOf, k) && all[k].target.deriveKey == key
  }

  ghost predicate Acceptable(inputs: Inputs, generators: seq<Generator>, keyOf: KeyOf) {
    UniqueNames(generators) && CapOk(inputs) && GoodKeys(AllOf(generators), keyOf)
  }

  // ---------------------------------------------------------------------------
  // enumerateTargets
  // ---------------------------------------------------------------------------

  method CheckNames(generators: seq<Generator>) returns (repeated: Option<string>)
    ensures repeated.None? <==> UniqueNames(generators)
    ensures repeated.Some? ==> exists k :: FirstRepeatedName(generators, k) && generators[k].name == repeated.value
  {
    var names: set<string> := {};
    for i := 0 to |generators|
      invariant forall j | 0 <= j < i :: !RepeatsName(generators, j)
      invariant forall n :: n in names <==> exists j :: 0 <= j < i && generators[j].name == n
    {
      if generators[i].name in names {
        assert FirstRepeatedName(generators, i);
        return Some(generators[i].name);
      }
      names := names + {generators[i].name};
    }
    repeated := None;
  }

  /** What the loop over the generators has read so far: all proposals are in order up to here. */
  ghost predicate ReadSoFar(all: seq<Expected>, keys: set<string>, keyOf: KeyOf) {
    GoodKeys(all, keyOf) && keys == ProposedKeys(all)
  }

  method ReadGenerator(g: Generator, before: seq<Expected>, keysBefore: set<string>, keyOf: KeyOf)
    returns (all: seq<Expected>, keys: set<string>, refused: Option<EnumerationError>)
    requires ReadSoFar(before, keysBefore, keyOf)
    ensures refused.None? ==> all == before + ExpectedOf(g) && ReadSoFar(all, keys, keyOf)
    ensures refused.Some? ==>
              var whole := before + ExpectedOf(g);
              exists k :: FirstRefused(whole, keyOf, k) &&
                          refused == Some(if BadKeyAt(whole, keyOf, k) then BadDeriveKey(whole[k].name)
                                          else DuplicateDeriveKey(whole[k].target.deriveKey))
  {
    all, keys := before, keysBefore;
    ghost var whole := before + ExpectedOf(g);
    for i := 0 to |g.targets|
      invariant all == whole[..|before| + i] && ReadSoFar(all, keys, keyOf)
    {
      var t := Expected(g.name, g.version, g.targets[i]);
      ghost var k := |before| + i;
      assert whole[k] == t && whole[..k + 1] == all + [t];
      NextKey(whole, keyOf, k);
      if g.targets[i].deriveKey != keyOf(g.name, g.version, g.targets[i].parts) {
        assert BadKeyAt(whole, keyOf, k) && FirstRefused(whole, keyOf, k);
        return all, keys, Some(BadDeriveKey(g.name));
      }
      if g.targets[i].deriveKey in keys {
        assert RepeatsKey(whole, k) && FirstRefused(whole, keyOf, k);
        return all, keys, Some(DuplicateDeriveKey(g.targets[i].deriveKey));
      }
      all, keys := all + [t], keys + {g.targets[i].deriveKey};
    }
    assert whole[..|whole|] == whole;
    refused := None;
  }

  lemma SameInPrefix(whole: seq<Expected>, keyOf: KeyOf, k: nat, j: nat)
    requires j < k <= |whole|
    ensures KeyRefused(whole, keyOf, j) <==> KeyRefused(whole[..k], keyOf, j)
  {
    assert forall i | 0 <= i < k :: whole[..k][i] == whole[i];
  }

  lemma NextKey(whole: seq<Expected>, keyOf: KeyOf, k: nat)
    requires k < |whole| && GoodKeys(whole[..k], keyOf)
    ensures forall j | 0 <= j < k :: !KeyRefused(whole, keyOf, j)
    ensures RepeatsKey(whole, k) <==> whole[k].target.deriveKey in ProposedKeys(whole[..k])
    ensures !KeyRefused(whole, keyOf, k) ==> GoodKeys(whole[..k + 1], keyOf)
  {
    forall j | 0 <= j < k ensures !KeyRefused(whole, keyOf, j) {
      SameInPrefix(whole, keyOf, k, j);
    }
    if RepeatsKey(whole, k) {
      var i :| 0 <= i < k && whole[i].target.deriveKey == whole[k].target.deriveKey;
      assert whole[..k][i] in whole[..k];
    }
    if !KeyRefused(whole, keyOf, k) {
      var more := whole[..k + 1];
      forall j | 0 <= j < |more| ensures !KeyRefused(more, keyOf, j) {
        SameInPrefix(whole, keyOf, k + 1, j);
      }
    }
  }

  lemma {:induction false} AllOfPrefix(generators: seq<Generator>, i: nat)
    requires i <= |generators|
    ensures AllOf(generators[..i]) <= AllOf(generators)
    decreases |generators|
  {
    if i < |generators| {
      AllOfPrefix(generators[..|generators| - 1], i);
      assert generators[..|generators| - 1][..i] == generators[..i];
    } else {
      assert generators[..i] == generators;
    }
  }

  lemma RefusedInWhole(part: seq<Expected>, whole: seq<Expected>, keyOf: KeyOf, k: int)
    requires part <= whole && FirstRefused(part, keyOf, k)
    ensures FirstRefused(whole, keyOf, k) && BadKeyAt(whole, keyOf, k) == BadKeyAt(part, keyOf, k)
    ensures whole[k] == part[k]
  {
    assert part == whole[..|part|];
    forall j | 0 <= j <= k ensures KeyRefused(whole, keyOf, j) <==> KeyRefused(part, keyOf, j) {
      SameInPrefix(whole, keyOf, |part|, j);
    }
  }

  method ReadGenerators(generators: seq<Generator>, keyOf: KeyOf)
    returns (all: seq<Expected>, keys: set<string>, refused: Option<EnumerationError>)
    ensures refused.None? ==> all == AllOf(generators) && ReadSoFar(all, keys, keyOf)
    ensures refused.Some? ==>
              var whole := AllOf(generators);
              exists k :: FirstRefused(whole, keyOf, k) &&
                          refused == Some(if BadKeyAt(whole, keyOf, k) then BadDeriveKey(whole[k].name)
                                          else DuplicateDeriveKey(whole[k].target.deriveKey))
  {
    all, keys := [], {};
    for i := 0 to |generators|
      invariant all == AllOf(generators[..i]) && ReadSoFar(all, keys, keyOf)
    {
      ghost var before := all;
      assert generators[..i + 1][..i] == generators[..i];
      all, keys, refused := ReadGenerator(generators[i], all, keys, keyOf);
      if refused.Some? {
        ghost var part := before + ExpectedOf(generators[i]);
        ghost var k :| FirstRefused(part, keyOf, k) &&
                       refused == Some(if BadKeyAt(part, keyOf, k) then BadDeriveKey(part[k].name)
                                       else DuplicateDeriveKey(part[k].target.deriveKey));
        AllOfPrefix(generators, i + 1);
        RefusedInWhole(part, AllOf(generators), keyOf, k);
        return;
      }
    }
    assert generators[..|generators|] == generators;
    refused := None;
  }

  method EnumerateTargets(inputs: Inputs, generators: seq<Generator>, entries: seq<Entry>, keyOf: KeyOf)
    returns (r: Result<Enumeration, EnumerationError>)
    ensures r.Ok? <==> Acceptable(inputs, generators, keyOf)
    ensures r.Err? ==> Refusal(inputs, generators, keyOf, r.error)
    ensures r.Ok? ==>
              var all, max := AllOf(generators), MaxDerived(inputs);
              && r.value.maxDerived == max
              && r.value.targets == Targets(max, all, entries)
              && r.value.droppedByCap == |all| - |Targets(max, all, entries)|
  {
    var repeated := CheckNames(generators);
    if repeated.Some? {
      return Err(DuplicateGenerator(repeated.value));
    }
    if !CapOk(inputs) {
      return Err(BadGravityCap);
    }
    var max := MaxDerived(inputs);
    var all, keys, refused := ReadGenerators(generators, keyOf);
    if refused.Some? {
      return Err(refused.value);
    }
    var manifestKeys := EntryKeys(entries);
    var proposals := Filter(KeyNotIn(manifestKeys), all);
    var live := |Filter(EntryIn(keys), entries)|;
    var budget := if max >= live then max - live else 0;
    var kept := Take(proposals, budget);
    SplitByKey(manifestKeys, all);
    r := Ok(Enumeration(Filter(KeyIn(manifestKeys), all) + kept, |proposals| - |kept|, max));
  }

  lemma {:induction false} SplitByKey(keys: set<string>, all: seq<Expected>)
    ensures |all| == |Filter(KeyIn(keys), all)| + |Filter(KeyNotIn(keys), all)|
  {
    if all != [] { SplitByKey(keys, all[1..]); }
  }

  /** orphanSet rebuilds each key from the target's parts; on accepted generators that is the key proposed. */
  lemma OrphansByRebuiltKey(inputs: Inputs, generators: seq<Generator>, keyOf: KeyOf)
    requires Acceptable(inputs, generators, keyOf)
    ensures var all := AllOf(generators);
            (set t | t in all :: keyOf(t.name, t.version, t.target.parts)) == ProposedKeys(all)
  {
    var all := AllOf(generators);
    forall t | t in all ensures t.target.deriveKey == keyOf(t.name, t.version, t.target.parts) {
      var k :| 0 <= k < |all| && all[k] == t;
      assert !KeyRefused(all, keyOf, k);
    }
  }
}
