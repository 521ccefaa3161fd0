/**
 * The token budgets: which slots are dropped, in what order, and when the dropping stops. The
 * render is any function from a packet to the sizes of its text.
 */
module Budget {
  import opened Orders
  import opened Candidates
  import opened Quota
  import opened PacketLaws
  import opened Coherence
  import opened SwapLoop

  const MEMORY_TRIM_TARGET := 3

  /** Tokens of the two sections the assembler owns, and of the whole packet. */
  datatype Tokens = Tokens(exemplars: nat, memory: nat, total: nat)

  datatype Budgets = Budgets(exemplars: nat, memory: nat, total: nat)

  function IsMemory(s: Scored): bool {
    s.c.tier == Memory
  }

  function IsExemplar(s: Scored): bool {
    s.c.tier != Memory
  }

  function IsEpisodeMemory(g: GroupV): bool {
    g.kind == EpisodeMemoryGroup
  }

  function ExemplarMembers(p: Packet): (ms: seq<Scored>)
    ensures forall s :: s in ms <==> s in MembersOf(p.groups) && s.c.tier != Memory
  {
    Filter(IsExemplar, MembersOf(p.groups))
  }

  /** The memory-tier slots of the episode-memory group; one elsewhere is never trimmed. */
  function MemoryMembers(p: Packet): seq<Scored> {
    Filter(IsMemory, MembersOf(Filter(IsEpisodeMemory, p.groups)))
  }

  function ProceduralDropped(p: Packet, slot: Scored): Packet {
    p.(procedural := RemoveSlot(p.procedural, slot), proceduralOut := p.proceduralOut + [slot])
  }

  // ---------------------------------------------------------------------------
  // Drops
  // ---------------------------------------------------------------------------

  datatype BudgetDrop = ProceduralDrop(slot: Scored) | ExemplarDrop(group: nat, slot: Scored) | MemoryDrop(group: nat, slot: Scored)

  ghost predicate Holds(p: Packet, i: nat, slot: Scored) {
    i < |p.groups| && slot in p.groups[i].members
  }

  /** The lowest-scored of its class leaves. */
  ghost predicate Legal(p: Packet, d: BudgetDrop) {
    match d
    case ProceduralDrop(slot) => Lowest(slot, p.procedural)
    case ExemplarDrop(i, slot) => Holds(p, i, slot) && Lowest(slot, ExemplarMembers(p))
    case MemoryDrop(i, slot) => Holds(p, i, slot) && Lowest(slot, MemoryMembers(p))
  }

  /** Which budget calls for this drop. */
  predicate CalledFor(p: Packet, d: BudgetDrop, render: Packet -> Tokens, b: Budgets) {
    var t := render(p);
    match d
    case ProceduralDrop(_) => t.total > b.total
    case ExemplarDrop(_, _) => t.exemplars > b.exemplars || (t.total > b.total && p.procedural == [])
    case MemoryDrop(_, _) =>
      || t.memory > b.memory
      || (t.total > b.total && p.procedural == [] && ExemplarMembers(p) == [] && |MemoryMembers(p)| > MEMORY_TRIM_TARGET)
  }

  function ApplyDrop(p: Packet, d: BudgetDrop): Packet {
    match d
    case ProceduralDrop(slot) => ProceduralDropped(p, slot)
    case ExemplarDrop(i, slot) => if i < |p.groups| then Vacated(p, i, slot) else p
    case MemoryDrop(i, slot) => if i < |p.groups| then Vacated(p, i, slot) else p
  }

  function AfterDrops(p: Packet, drops: seq<BudgetDrop>): Packet
    decreases |drops|
  {
    if drops == [] then p else ApplyDrop(AfterDrops(p, drops[..|drops| - 1]), drops[|drops| - 1])
  }

  ghost function DueNext(p: Packet, render: Packet -> Tokens, b: Budgets): (seq<BudgetDrop>, BudgetDrop) -> bool {
    (drops: seq<BudgetDrop>, d: BudgetDrop) => Legal(AfterDrops(p, drops), d) && CalledFor(AfterDrops(p, drops), d, render, b)
  }

  /** Every drop takes the lowest of its class, and a budget calls for it. */
  ghost predicate DueRun(p: Packet, drops: seq<BudgetDrop>, render: Packet -> Tokens, b: Budgets) {
    Chain(DueNext(p, render, b), drops)
  }

  /** The packet fits, or the overflow order has nothing left that it may drop. */
  ghost predicate Settled(p: Packet, render: Packet -> Tokens, b: Budgets) {
    || render(p).total <= b.total
    || (p.procedural == [] && ExemplarMembers(p) == [] && |MemoryMembers(p)| <= 3)
  }

  // ---------------------------------------------------------------------------
  // What the drops keep
  // ---------------------------------------------------------------------------

  /** Slots only move from the members to the end of the out list. */
  ghost predicate GroupTrimmed(g: GroupV, h: GroupV) {
    && h.kind == g.kind && h.min == g.min && h.runners == g.runners && g.out <= h.out
    && multiset(h.members) + multiset(h.out) == multiset(g.members) + multiset(g.out)
  }

  /** What is gone scored lower than what is left, or the same with the lower id. */
  ghost predicate CutBelow(before: seq<Scored>, after: seq<Scored>) {
    && (forall k | k in after :: k in before)
    && forall d, k | d in before && d !in after && k in after ::
         d.score < k.score || (d.score == k.score && StringLeq(d.c.id, k.c.id))
  }

  ghost predicate Apart(p: Packet) {
    UniqueIds(MembersOf(p.groups)) && UniqueIds(p.procedural)
  }

  /** Nothing lost, nothing invented, and within each class what is gone ranks below what is left. */
  ghost predicate Trimmed(start: Packet, now: Packet) {
    && |now.groups| == |start.groups| && now.scarcity == start.scarcity
    && (forall i | 0 <= i < |start.groups| :: GroupTrimmed(start.groups[i], now.groups[i]))
    && start.proceduralOut <= now.proceduralOut
    && multiset(now.procedural) + multiset(now.proceduralOut) == multiset(start.procedural) + multiset(start.proceduralOut)
    && CutBelow(start.procedural, now.procedural)
    && CutBelow(ExemplarMembers(start), ExemplarMembers(now))
    && CutBelow(MemoryMembers(start), MemoryMembers(now))
  }

  lemma VacatedMembers(p: Packet, i: nat, slot: Scored)
    requires i < |p.groups| && slot in p.groups[i].members && UniqueIds(MembersOf(p.groups))
    ensures forall s :: s in MembersOf(Vacated(p, i, slot).groups) <==> s in MembersOf(p.groups) && s != slot
    ensures UniqueIds(MembersOf(Vacated(p, i, slot).groups))
    ensures |MembersOf(Vacated(p, i, slot).groups)| < |MembersOf(p.groups)|
  {
    var g, v := p.groups[i], Vacated(p, i, slot);
    var pre, post := MembersOf(p.groups[..i]), MembersOf(p.groups[i + 1..]);
    MembersUpdated(p.groups, i, v.groups[i]);
    RemovedParts(g.members, slot);
    VacatedSmaller(g.members, slot);
    UniqueShrunk(pre, g.members, v.groups[i].members, post);
    assert slot !in pre && slot !in post by {
      UniqueParts(pre + g.members, post);
      UniqueParts(pre, g.members);
    }
  }

  lemma MemoryByGroup(p: Packet, s: Scored)
    ensures s in MemoryMembers(p) <==>
            s.c.tier == Memory
            && exists k :: 0 <= k < |p.groups| && p.groups[k].kind == EpisodeMemoryGroup && s in p.groups[k].members
  {
    var kept := Filter(IsEpisodeMemory, p.groups);
    SelectedByGroup(kept, s);
    if k :| 0 <= k < |p.groups| && p.groups[k].kind == EpisodeMemoryGroup && s in p.groups[k].members {
      assert p.groups[k] in kept;
      var j :| 0 <= j < |kept| && kept[j] == p.groups[k];
      assert s in kept[j].members;
    }
    if j :| 0 <= j < |kept| && s in kept[j].members {
      assert kept[j] in kept && kept[j] in p.groups;
      var k :| 0 <= k < |p.groups| && p.groups[k] == kept[j];
      assert IsEpisodeMemory(p.groups[k]) && s in p.groups[k].members;
    }
  }

  /** A vacated slot leaves the memory view exactly when it was in it; the others stay. */
  lemma VacatedMemory(p: Packet, i: nat, slot: Scored, s: Scored)
    requires i < |p.groups| && slot in p.groups[i].members && UniqueIds(MembersOf(p.groups))
    ensures s in MemoryMembers(Vacated(p, i, slot)) <==> s in MemoryMembers(p) && s != slot
  {
    var v := Vacated(p, i, slot);
    RemovedParts(p.groups[i].members, slot);
    MemoryByGroup(p, s);
    MemoryByGroup(v, s);
    if k :| 0 <= k < |p.groups| && IsEpisodeMemory(p.groups[k]) && s in p.groups[k].members {
      if s != slot {
        assert IsEpisodeMemory(v.groups[k]) && s in v.groups[k].members;
      }
    }
    if k :| 0 <= k < |v.groups| && IsEpisodeMemory(v.groups[k]) && s in v.groups[k].members {
      assert IsEpisodeMemory(p.groups[k]) && s in p.groups[k].members;
      if s == slot {
        OneGroupHolds(p.groups, i, k, slot);
      }
    }
  }

  lemma VacatedTrims(g: GroupV, h: GroupV, slot: Scored)
    requires GroupTrimmed(g, h) && slot in h.members && UniqueIds(h.members)
    ensures GroupTrimmed(g, h.(members := RemoveSlot(h.members, slot), out := h.out + [slot]))
  {
    RemovedParts(h.members, slot);
    assert slot in multiset(h.members) && multiset(h.members)[slot] == 1;
    assert multiset(RemoveSlot(h.members, slot)) + multiset{slot} == multiset(h.members);
    assert multiset(h.out + [slot]) == multiset(h.out) + multiset{slot};
  }

  lemma GroupUnique(groups: seq<GroupV>, i: nat)
    requires i < |groups| && UniqueIds(MembersOf(groups))
    ensures UniqueIds(groups[i].members)
  {
    MembersSplit(groups, i);
    UniqueParts(MembersOf(groups[..i]) + groups[i].members, MembersOf(groups[i + 1..]));
    UniqueParts(MembersOf(groups[..i]), groups[i].members);
  }

  lemma CutLower(before: seq<Scored>, now: seq<Scored>, after: seq<Scored>, slot: Scored)
    requires CutBelow(before, now) && Lowest(slot, now)
    requires forall s :: s in after <==> s in now && s != slot
    ensures CutBelow(before, after)
  {
  }

  lemma VacatedShape(start: Packet, now: Packet, i: nat, slot: Scored)
    requires Trimmed(start, now) && Apart(now) && i < |now.groups| && slot in now.groups[i].members
    ensures var v := Vacated(now, i, slot);
            && |v.groups| == |start.groups|
            && forall k | 0 <= k < |start.groups| :: GroupTrimmed(start.groups[k], v.groups[k])
  {
    GroupUnique(now.groups, i);
    VacatedTrims(start.groups[i], now.groups[i], slot);
  }

  lemma ExemplarDropTrims(start: Packet, now: Packet, i: nat, slot: Scored)
    requires Trimmed(start, now) && Apart(now) && Legal(now, ExemplarDrop(i, slot))
    ensures Trimmed(start, Vacated(now, i, slot)) && Apart(Vacated(now, i, slot))
  {
    var v := Vacated(now, i, slot);
    VacatedMembers(now, i, slot);
    assert CutBelow(ExemplarMembers(start), ExemplarMembers(v)) by {
      CutLower(ExemplarMembers(start), ExemplarMembers(now), ExemplarMembers(v), slot);
    }
    assert CutBelow(MemoryMembers(start), MemoryMembers(v)) by {
      forall s ensures s in MemoryMembers(v) <==> s in MemoryMembers(now) {
        VacatedMemory(now, i, slot, s);
      }
    }
    VacatedShape(start, now, i, slot);
  }

  lemma MemoryDropTrims(start: Packet, now: Packet, i: nat, slot: Scored)
    requires Trimmed(start, now) && Apart(now) && Legal(now, MemoryDrop(i, slot))
    ensures Trimmed(start, Vacated(now, i, slot)) && Apart(Vacated(now, i, slot))
  {
    var v := Vacated(now, i, slot);
    VacatedMembers(now, i, slot);
    assert CutBelow(ExemplarMembers(start), ExemplarMembers(v)) by {
      assert forall s :: s in ExemplarMembers(v) <==> s in ExemplarMembers(now);
    }
    assert CutBelow(MemoryMembers(start), MemoryMembers(v)) by {
      forall s ensures s in MemoryMembers(v) <==> s in MemoryMembers(now) && s != slot {
        VacatedMemory(now, i, slot, s);
      }
      CutLower(MemoryMembers(start), MemoryMembers(now), MemoryMembers(v), slot);
    }
    VacatedShape(start, now, i, slot);
  }

  lemma ListTrimmed(members: seq<Scored>, slot: Scored)
    requires slot in members && UniqueIds(members)
    ensures var rest := RemoveSlot(members, slot);
            && UniqueIds(rest) && |rest| < |members| && multiset(rest) + multiset{slot} == multiset(members)
            && forall s :: s in rest <==> s in members && s != slot
  {
    var rest := RemoveSlot(members, slot);
    RemovedParts(members, slot);
    VacatedSmaller(members, slot);
    assert slot in multiset(members) && multiset(members)[slot] == 1;
    forall x ensures multiset(rest)[x] <= 1 {}
  }

  lemma ProceduralDropTrims(start: Packet, now: Packet, slot: Scored)
    requires Trimmed(start, now) && Apart(now) && Lowest(slot, now.procedural)
    ensures var v := ProceduralDropped(now, slot);
            Trimmed(start, v) && Apart(v) && |v.procedural| < |now.procedural|
  {
    var v := ProceduralDropped(now, slot);
    ListTrimmed(now.procedural, slot);
    assert CutBelow(start.procedural, v.procedural) by {
      CutLower(start.procedural, now.procedural, v.procedural, slot);
    }
    assert multiset(v.proceduralOut) == multiset(now.proceduralOut) + multiset{slot};
    assert v.groups == now.groups;
  }

  lemma DropTrims(start: Packet, now: Packet, d: BudgetDrop)
    requires Trimmed(start, now) && Apart(now) && Legal(now, d)
    ensures Trimmed(start, ApplyDrop(now, d)) && Apart(ApplyDrop(now, d))
  {
    match d
    case ProceduralDrop(slot) => ProceduralDropTrims(start, now, slot);
    case ExemplarDrop(i, slot) => ExemplarDropTrims(start, now, i, slot);
    case MemoryDrop(i, slot) => MemoryDropTrims(start, now, i, slot);
  }

  /**
   * Over every run of due drops nothing is lost or invented, and within each class whatever was
   * dropped ranks below whatever is left.
   */
  lemma {:induction false} DropsTrim(p: Packet, drops: seq<BudgetDrop>, render: Packet -> Tokens, b: Budgets)
    requires Apart(p) && DueRun(p, drops, render, b)
    ensures Trimmed(p, AfterDrops(p, drops)) && Apart(AfterDrops(p, drops))
    decreases |drops|
  {
    if drops != [] {
      DropsTrim(p, drops[..|drops| - 1], render, b);
      DropTrims(p, AfterDrops(p, drops[..|drops| - 1]), drops[|drops| - 1]);
    }
  }

  /** Every run of drops keeps the packet sound. */
  lemma {:induction false} DropsKeepSound(p: Packet, drops: seq<BudgetDrop>, q: Query, cfg: Config)
    requires Sound(p.groups, q, cfg)
    ensures Sound(AfterDrops(p, drops).groups, q, cfg)
    decreases |drops|
  {
    if drops != [] {
      var now, d := AfterDrops(p, drops[..|drops| - 1]), drops[|drops| - 1];
      DropsKeepSound(p, drops[..|drops| - 1], q, cfg);
      if !d.ProceduralDrop? && d.group < |now.groups| {
        VacatedSound(now, d.group, d.slot, q, cfg);
      }
    }
  }

  // ---------------------------------------------------------------------------
  // Termination
  // ---------------------------------------------------------------------------

  /** Slots still in the packet: what every drop makes fewer. */
  ghost function Size(p: Packet): nat {
    |MembersOf(p.groups)| + |p.procedural|
  }

  lemma VacatedFewer(p: Packet, i: nat, slot: Scored)
    requires Holds(p, i, slot)
    ensures Size(Vacated(p, i, slot)) < Size(p)
  {
    MembersUpdated(p.groups, i, Vacated(p, i, slot).groups[i]);
    VacatedSmaller(p.groups[i].members, slot);
  }

  lemma DropShrinks(p: Packet, d: BudgetDrop)
    requires Legal(p, d)
    ensures Size(ApplyDrop(p, d)) < Size(p)
  {
    match d
    case ProceduralDrop(slot) => VacatedSmaller(p.procedural, slot);
    case ExemplarDrop(i, slot) => VacatedFewer(p, i, slot);
    case MemoryDrop(i, slot) => VacatedFewer(p, i, slot);
  }

  // ---------------------------------------------------------------------------
  // The three drops
  // ---------------------------------------------------------------------------

  method Vacate(sel: Selection, i: nat, slot: Scored)
    requires sel.Valid() && i < |sel.groups|
    modifies sel.groups
    ensures sel.View() == Vacated(old(sel.View()), i, slot)
  {
    ghost var v := Vacated(sel.View(), i, slot);
    var g := sel.groups[i];
    g.out := g.out + [slot];
    g.members := RemoveSlot(g.members, slot);
    assert sel.View().groups == v.groups;
  }

  method DropLowestProcedural(sel: Selection) returns (ok: bool, ghost drop: Option<BudgetDrop>)
    modifies sel`procedural, sel`proceduralOut
    ensures ok <==> old(sel.procedural) != []
    ensures ok ==> drop.Some? && drop.value.ProceduralDrop? && Legal(old(sel.View()), drop.value)
                   && sel.View() == ApplyDrop(old(sel.View()), drop.value)
    ensures !ok ==> sel.View() == old(sel.View())
  {
    ghost var p := sel.View();
    if sel.procedural == [] {
      return false, None;
    }
    var lowest := SortBy(LowestFirst, sel.procedural)[0];
    LowestIsFirst(sel.procedural);
    sel.proceduralOut := sel.proceduralOut + [lowest];
    sel.procedural := RemoveSlot(sel.procedural, lowest);
    assert sel.View().groups == p.groups;
    return true, Some(ProceduralDrop(lowest));
  }

  method DropLowestExemplar(sel: Selection) returns (ok: bool, ghost drop: Option<BudgetDrop>)
    requires sel.Valid()
    modifies sel.groups
    ensures ok <==> ExemplarMembers(old(sel.View())) != []
    ensures ok ==> drop.Some? && drop.value.ExemplarDrop? && Legal(old(sel.View()), drop.value)
                   && sel.View() == ApplyDrop(old(sel.View()), drop.value)
    ensures !ok ==> sel.View() == old(sel.View())
  {
    var exemplars := ExemplarMembers(sel.View());
    if exemplars == [] {
      return false, None;
    }
    var victim := SortBy(LowestFirst, exemplars)[0];
    LowestIsFirst(exemplars);
    var i := GroupOfScored(sel, victim);
    Vacate(sel, i, victim);
    return true, Some(ExemplarDrop(i, victim));
  }

  /** At most one group of the kind, as every fill builds it. */
  ghost predicate OneEpisodeGroup(p: Packet) {
    forall i, j | 0 <= i < j < |p.groups| :: !(IsEpisodeMemory(p.groups[i]) && IsEpisodeMemory(p.groups[j]))
  }

  method EpisodeGroup(sel: Selection, victim: Scored) returns (i: nat)
    requires victim in MemoryMembers(sel.View()) && OneEpisodeGroup(sel.View())
    ensures Holds(sel.View(), i, victim)
  {
    ghost var p := sel.View();
    MemoryByGroup(p, victim);
    ghost var at :| 0 <= at < |p.groups| && IsEpisodeMemory(p.groups[at]) && victim in p.groups[at].members;
    i := 0;
    while sel.groups[i].kind != EpisodeMemoryGroup
      invariant i <= at
      decreases at - i
    {
      assert !IsEpisodeMemory(p.groups[i]);
      i := i + 1;
    }
    assert IsEpisodeMemory(p.groups[i]);
  }

  method DropLowestMemory(sel: Selection) returns (ok: bool, ghost drop: Option<BudgetDrop>)
    requires sel.Valid() && OneEpisodeGroup(sel.View())
    modifies sel.groups
    ensures ok <==> MemoryMembers(old(sel.View())) != []
    ensures ok ==> drop.Some? && drop.value.MemoryDrop? && Legal(old(sel.View()), drop.value)
                   && sel.View() == ApplyDrop(old(sel.View()), drop.value)
    ensures !ok ==> sel.View() == old(sel.View())
  {
    var memory := MemoryMembers(sel.View());
    if memory == [] {
      return false, None;
    }
    var victim := SortBy(LowestFirst, memory)[0];
    LowestIsFirst(memory);
    var i := EpisodeGroup(sel, victim);
    Vacate(sel, i, victim);
    return true, Some(MemoryDrop(i, victim));
  }

  // ---------------------------------------------------------------------------
  // enforceBudgets
  // ---------------------------------------------------------------------------

  /** A run of due drops leads from the start to here. */
  ghost predicate DroppedTo(start: Packet, drops: seq<BudgetDrop>, now: Packet, render: Packet -> Tokens, b: Budgets) {
    DueRun(start, drops, render, b) && now == AfterDrops(start, drops) && OneEpisodeGroup(now)
  }

  lemma NextDrop(start: Packet, drops: seq<BudgetDrop>, now: Packet, d: BudgetDrop, render: Packet -> Tokens, b: Budgets)
    requires DroppedTo(start, drops, now, render, b) && Legal(now, d) && CalledFor(now, d, render, b)
    ensures DroppedTo(start, drops + [d], ApplyDrop(now, d), render, b)
  {
    assert (drops + [d])[..|drops|] == drops;
    assert DueNext(start, render, b)(drops, d);
    KindsKept(now, d);
  }

  lemma KindsKept(now: Packet, d: BudgetDrop)
    requires OneEpisodeGroup(now)
    ensures OneEpisodeGroup(ApplyDrop(now, d))
  {
    var r := ApplyDrop(now, d);
    assert |r.groups| == |now.groups|;
    assert forall i | 0 <= i < |now.groups| :: r.groups[i].kind == now.groups[i].kind;
  }

  /** The run goes on with one more due drop, and the packet is smaller. */
  ghost predicate OneDropOn(start: Packet, before: seq<BudgetDrop>, was: Packet, drops: seq<BudgetDrop>, now: Packet,
                            render: Packet -> Tokens, b: Budgets)
  {
    DroppedTo(start, drops, now, render, b) && |drops| == |before| + 1 && Size(now) < Size(was)
  }

  lemma DropDone(start: Packet, before: seq<BudgetDrop>, was: Packet, d: BudgetDrop, render: Packet -> Tokens, b: Budgets)
    requires DroppedTo(start, before, was, render, b) && Legal(was, d) && CalledFor(was, d, render, b)
    ensures OneDropOn(start, before, was, before + [d], ApplyDrop(was, d), render, b)
  {
    NextDrop(start, before, was, d, render, b);
    DropShrinks(was, d);
  }

  /** [EXEMPLARS] fits, or no exemplar is left. */
  method FitExemplars(sel: Selection, render: Packet -> Tokens, b: Budgets, ghost start: Packet, ghost before: seq<BudgetDrop>)
    returns (ghost drops: seq<BudgetDrop>)
    requires sel.Valid() && DroppedTo(start, before, sel.View(), render, b)
    modifies sel.groups
    ensures DroppedTo(start, drops, sel.View(), render, b)
    ensures render(sel.View()).exemplars <= b.exemplars || ExemplarMembers(sel.View()) == []
  {
    drops := before;
    while render(sel.View()).exemplars > b.exemplars
      invariant DroppedTo(start, drops, sel.View(), render, b)
      decreases Size(sel.View())
    {
      ghost var was := sel.View();
      var ok, drop := DropLowestExemplar(sel);
      if !ok {
        break;
      }
      DropDone(start, drops, was, drop.value, render, b);
      drops := drops + [drop.value];
    }
  }

  /** [MEMORY] fits, or no memory item is left. */
  method FitMemory(sel: Selection, render: Packet -> Tokens, b: Budgets, ghost start: Packet, ghost before: seq<BudgetDrop>)
    returns (ghost drops: seq<BudgetDrop>)
    requires sel.Valid() && DroppedTo(start, before, sel.View(), render, b)
    modifies sel.groups
    ensures DroppedTo(start, drops, sel.View(), render, b)
    ensures render(sel.View()).memory <= b.memory || MemoryMembers(sel.View()) == []
  {
    drops := before;
    while render(sel.View()).memory > b.memory
      invariant DroppedTo(start, drops, sel.View(), render, b)
      decreases Size(sel.View())
    {
      ghost var was := sel.View();
      var ok, drop := DropLowestMemory(sel);
      if !ok {
        break;
      }
      DropDone(start, drops, was, drop.value, render, b);
      drops := drops + [drop.value];
    }
  }

  /** One drop of the overflow order, or none when it has nothing left to drop. */
  method Overflow(sel: Selection, render: Packet -> Tokens, b: Budgets) returns (ok: bool, ghost drop: Option<BudgetDrop>)
    requires sel.Valid() && OneEpisodeGroup(sel.View()) && render(sel.View()).total > b.total
    modifies sel.groups, sel`procedural, sel`proceduralOut
    ensures ok ==> drop.Some? && Legal(old(sel.View()), drop.value) && CalledFor(old(sel.View()), drop.value, render, b)
                   && sel.View() == ApplyDrop(old(sel.View()), drop.value)
    ensures !ok ==> sel.View() == old(sel.View()) && Settled(sel.View(), render, b)
  {
    if |sel.procedural| > 0 {
      ok, drop := DropLowestProcedural(sel);
    } else if |ExemplarMembers(sel.View())| > 0 {
      ok, drop := DropLowestExemplar(sel);
    } else if |MemoryMembers(sel.View())| > MEMORY_TRIM_TARGET {
      ok, drop := DropLowestMemory(sel);
    } else {
      return false, None;
    }
  }

  method OverflowOnce(sel: Selection, render: Packet -> Tokens, b: Budgets, ghost start: Packet, ghost before: seq<BudgetDrop>)
    returns (ok: bool, ghost drops: seq<BudgetDrop>)
    requires sel.Valid() && DroppedTo(start, before, sel.View(), render, b) && render(sel.View()).total > b.total
    modifies sel.groups, sel`procedural, sel`proceduralOut
    ensures ok ==> OneDropOn(start, before, old(sel.View()), drops, sel.View(), render, b)
    ensures !ok ==> drops == before && sel.View() == old(sel.View()) && Settled(sel.View(), render, b)
  {
    ghost var was := sel.View();
    ghost var drop;
    ok, drop := Overflow(sel, render, b);
    drops := before;
    if ok {
      DropDone(start, before, was, drop.value, render, b);
      drops := before + [drop.value];
    }
  }

  method FitTotal(sel: Selection, render: Packet -> Tokens, b: Budgets, ghost start: Packet, ghost before: seq<BudgetDrop>)
    returns (ghost drops: seq<BudgetDrop>)
    requires sel.Valid() && DroppedTo(start, before, sel.View(), render, b)
    modifies sel.groups, sel`procedural, sel`proceduralOut
    ensures DroppedTo(start, drops, sel.View(), render, b)
    ensures Settled(sel.View(), render, b)
  {
    drops := before;
    var ok := true;
    while ok && render(sel.View()).total > b.total
      invariant DroppedTo(start, drops, sel.View(), render, b)
      invariant !ok ==> Settled(sel.View(), render, b)
      decreases ok, Size(sel.View())
    {
      ok, drops := OverflowOnce(sel, render, b, start, drops);
    }
  }

  /**
   * A run of due drops, each of the lowest-scored slot of its class, after which the packet fits
   * or nothing is left that the overflow order may drop.
   */
  method EnforceBudgets(sel: Selection, render: Packet -> Tokens, b: Budgets) returns (ghost drops: seq<BudgetDrop>)
    requires sel.Valid() && OneEpisodeGroup(sel.View())
    modifies sel.groups, sel`procedural, sel`proceduralOut
    ensures DroppedTo(old(sel.View()), drops, sel.View(), render, b)
    ensures Settled(sel.View(), render, b)
  {
    ghost var start := sel.View();
    drops := FitExemplars(sel, render, b, start, []);
    drops := FitMemory(sel, render, b, start, drops);
    drops := FitTotal(sel, render, b, start, drops);
  }
}
